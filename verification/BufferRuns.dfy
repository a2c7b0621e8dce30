/** What waits while a book is being synchronised, over whole runs, and when a snapshot is enough. */
module BufferRuns {
  import opened Basics
  import opened OrderBook
  import opened BookSync

  // ---- what is buffered -----------------------------------------------------

  /** The events delivered since the pending resynchronisation began, its first one included. */
  ghost function Arrived(steps: seq<Step>, maxBuffer: nat): seq<Diff> {
    if steps == [] || RunOf(steps, maxBuffer).task.NoTask? then []
    else
      var before, step := steps[..|steps| - 1], steps[|steps| - 1];
      if !step.Deliver? then Arrived(before, maxBuffer)
      else if RunOf(before, maxBuffer).task.NoTask? then [step.ev]
      else Arrived(before, maxBuffer) + [step.ev]
  }

  /** A snapshot came during the pending resynchronisation when at least `used` events had arrived. */
  ghost predicate SnapshotSince(steps: seq<Step>, maxBuffer: nat, used: nat) {
    exists p :: 0 <= p < |steps| && SnapshotAt(steps, maxBuffer, used, p)
  }

  ghost predicate SnapshotAt(steps: seq<Step>, maxBuffer: nat, used: nat, p: nat) {
    && p < |steps| && steps[p].Arrives? && used <= |Arrived(steps[..p], maxBuffer)|
    && forall n :: p <= n <= |steps| ==> !RunOf(steps[..n], maxBuffer).task.NoTask?
  }

  /** All of them wait, in order, but for the `used` oldest, which a failed replay has used up, and for those
      that exceed the limit. */
  ghost predicate Waits(steps: seq<Step>, maxBuffer: nat, used: nat) {
    var all := Arrived(steps, maxBuffer);
    && used <= |all| && RunOf(steps, maxBuffer).buffer == all[MaxInt(used, |all| - maxBuffer)..]
    && (used > 0 ==> SnapshotSince(steps, maxBuffer, used))
  }

  lemma SinceStays(steps: seq<Step>, maxBuffer: nat, used: nat)
    requires steps != [] && SnapshotSince(steps[..|steps| - 1], maxBuffer, used)
    requires !RunOf(steps, maxBuffer).task.NoTask?
    ensures SnapshotSince(steps, maxBuffer, used)
  {
    hide RunOf;
    hide Arrived;
    var before := steps[..|steps| - 1];
    var p :| 0 <= p < |before| && SnapshotAt(before, maxBuffer, used, p);
    assert before[..p] == steps[..p] && steps[..|steps|] == steps;
    forall n | p <= n <= |steps| ensures !RunOf(steps[..n], maxBuffer).task.NoTask? {
      if n < |steps| {
        assert before[..n] == steps[..n];
      }
    }
    assert SnapshotAt(steps, maxBuffer, used, p);
  }

  lemma {:induction false} IdleWaits(steps: seq<Step>, maxBuffer: nat)
    ensures RunOf(steps, maxBuffer).task.NoTask? ==> RunOf(steps, maxBuffer).buffer == []
    ensures RunOf(steps, maxBuffer).book.id.None? || !RunOf(steps, maxBuffer).task.NoTask? ==>
              RunOf(steps, maxBuffer).book == EMPTY
  {
    hide Replayed;
    if steps == [] {
    } else {
      IdleWaits(steps[..|steps| - 1], maxBuffer);
      if steps[|steps| - 1].Arrives? {
        ReplayLeaves(FromSnapshot(steps[|steps| - 1].snap),
                     RunOf(steps[..|steps| - 1], maxBuffer).buffer);
      }
    }
  }

  /** A replay leaves nothing, or a proper rest of the events and no book. */
  lemma {:induction false} ReplayLeaves(b: Book, evs: seq<Diff>)
    requires b.id.Some?
    ensures var (r, rest) := Replayed(b, evs);
            && |rest| <= |evs| && rest == evs[|evs| - |rest|..]
            && if rest == [] then r.id.Some? && (b.ready ==> r.ready) else r == EMPTY
    decreases |evs|
  {
    hide WithLevels;
    if evs == [] {
    } else if Check(b, evs[0]) == Applied {
      ReplayLeaves(WithDiff(b, evs[0]), evs[1..]);
    } else if Check(b, evs[0]) == Dropped {
      ReplayLeaves(b, evs[1..]);
    } else {
    }
  }

  /** What a delivery or a failed snapshot does to the suffix that waits. */
  lemma SuffixGrows(all: seq<Diff>, k: nat, ev: Diff, n: nat)
    requires k <= |all|
    ensures (all + [ev])[k..] == all[k..] + [ev]
    ensures forall j: nat :: j <= |all| - k ==> all[k..][j..] == all[k + j..]
  {
  }

  /** A step that no snapshot answers: an event joins the others, and the oldest may have to go. */
  lemma OneMoreWaits(steps: seq<Step>, maxBuffer: nat, used: nat)
    requires steps != [] && 1 <= maxBuffer && Waits(steps[..|steps| - 1], maxBuffer, used)
    requires var s := RunOf(steps[..|steps| - 1], maxBuffer);
             !s.task.NoTask? && !(steps[|steps| - 1].Arrives? && s.task.Fetching?)
    requires !RunOf(steps, maxBuffer).task.NoTask?
    ensures Waits(steps, maxBuffer, used)
  {
    hide RunOf;
    hide Arrived;
    hide SnapshotSince;
    OneMoreArrives(steps, maxBuffer);
    if used > 0 {
      SinceStays(steps, maxBuffer, used);
    }
    var before, step := steps[..|steps| - 1], steps[|steps| - 1];
    var all := Arrived(before, maxBuffer);
    if step.Deliver? {
      SuffixGrows(all, MaxInt(used, |all| - maxBuffer), step.ev, maxBuffer);
    }
  }

  lemma LastStep(steps: seq<Step>, maxBuffer: nat)
    requires steps != []
    ensures RunOf(steps, maxBuffer) == Next(RunOf(steps[..|steps| - 1], maxBuffer), steps[|steps| - 1], maxBuffer)
  {
    hide Next;
  }

  lemma LastArrived(steps: seq<Step>, maxBuffer: nat)
    requires steps != [] && !RunOf(steps[..|steps| - 1], maxBuffer).task.NoTask?
    requires !RunOf(steps, maxBuffer).task.NoTask?
    ensures Arrived(steps, maxBuffer)
         == Arrived(steps[..|steps| - 1], maxBuffer)
            + if steps[|steps| - 1].Deliver? then [steps[|steps| - 1].ev] else []
  {
    hide RunOf;
  }

  lemma PendingStep(s: Sync, step: Step, maxBuffer: nat)
    requires !s.task.NoTask? && !(step.Arrives? && s.task.Fetching?) && !Next(s, step, maxBuffer).task.NoTask?
    ensures Next(s, step, maxBuffer).buffer
         == if step.Deliver? then (s.buffer + [step.ev])[MaxInt(0, |s.buffer| + 1 - maxBuffer)..] else s.buffer
  {
    hide Check;
    hide Replayed;
  }

  lemma OneMoreArrives(steps: seq<Step>, maxBuffer: nat)
    requires steps != [] && 1 <= maxBuffer
    requires var s := RunOf(steps[..|steps| - 1], maxBuffer);
             !s.task.NoTask? && !(steps[|steps| - 1].Arrives? && s.task.Fetching?)
    requires !RunOf(steps, maxBuffer).task.NoTask?
    ensures var before, step := steps[..|steps| - 1], steps[|steps| - 1];
            var was, now := RunOf(before, maxBuffer).buffer, RunOf(steps, maxBuffer).buffer;
            && Arrived(steps, maxBuffer) == Arrived(before, maxBuffer) + (if step.Deliver? then [step.ev] else [])
            && now == if step.Deliver? then (was + [step.ev])[MaxInt(0, |was| + 1 - maxBuffer)..] else was
  {
    hide *;
    LastStep(steps, maxBuffer);
    LastArrived(steps, maxBuffer);
    PendingStep(RunOf(steps[..|steps| - 1], maxBuffer), steps[|steps| - 1], maxBuffer);
  }

  /** In every run: while a task is pending, the newest events since it began wait, in order and as many as the
      limit allows, less what a failed replay has used up. */
  lemma {:induction false} BufferIs(steps: seq<Step>, maxBuffer: nat) returns (used: nat)
    requires 1 <= maxBuffer
    ensures !RunOf(steps, maxBuffer).task.NoTask? ==> Waits(steps, maxBuffer, used)
  {
    used := 0;
    if steps == [] {
    } else {
      var before, step := steps[..|steps| - 1], steps[|steps| - 1];
      var was := BufferIs(before, maxBuffer);
      IdleWaits(before, maxBuffer);
      var s, t := RunOf(before, maxBuffer), RunOf(steps, maxBuffer);
      hide Waits;
      hide Check;
      hide Replayed;
      hide Arrived;
      if !t.task.NoTask? {
        if s.task.NoTask? {
          FirstWaits(steps, maxBuffer);
        } else if step.Arrives? && s.task.Fetching? {
          used := UsedBy(steps, maxBuffer, was);
        } else {
          used := was;
          OneMoreWaits(steps, maxBuffer, used);
        }
      }
    }
  }

  lemma FirstWaits(steps: seq<Step>, maxBuffer: nat)
    requires steps != [] && 1 <= maxBuffer && RunOf(steps[..|steps| - 1], maxBuffer).task.NoTask?
    requires !RunOf(steps, maxBuffer).task.NoTask?
    ensures Waits(steps, maxBuffer, 0)
  {
    IdleWaits(steps[..|steps| - 1], maxBuffer);
    hide Replayed;
    hide WithLevels;
  }

  lemma UsedBy(steps: seq<Step>, maxBuffer: nat, was: nat) returns (used: nat)
    requires steps != [] && 1 <= maxBuffer
    requires var s, step := RunOf(steps[..|steps| - 1], maxBuffer), steps[|steps| - 1];
             s.task.Fetching? && step.Arrives? && Waits(steps[..|steps| - 1], maxBuffer, was)
    requires !RunOf(steps, maxBuffer).task.NoTask?
    ensures Waits(steps, maxBuffer, used)
  {
    var before, step := steps[..|steps| - 1], steps[|steps| - 1];
    hide RunOf;
    hide Replayed;
    hide Arrived;
    LastStep(steps, maxBuffer);
    LastArrived(steps, maxBuffer);
    var s, all := RunOf(before, maxBuffer), Arrived(before, maxBuffer);
    SnapshotDone(s, step.snap, maxBuffer);
    ReplayLeaves(FromSnapshot(step.snap), s.buffer);
    var k, rest := MaxInt(was, |all| - maxBuffer), RunOf(steps, maxBuffer).buffer;
    used := |all| - |rest|;
    assert all[k..][|all| - k - |rest|..] == all[used..];
    LastSnapshot(steps, maxBuffer, used);
    hide SnapshotSince;
  }

  lemma LastSnapshot(steps: seq<Step>, maxBuffer: nat, used: nat)
    requires steps != [] && steps[|steps| - 1].Arrives? && used <= |Arrived(steps[..|steps| - 1], maxBuffer)|
    requires !RunOf(steps[..|steps| - 1], maxBuffer).task.NoTask? && !RunOf(steps, maxBuffer).task.NoTask?
    ensures SnapshotSince(steps, maxBuffer, used)
  {
    hide RunOf;
    hide Arrived;
    assert steps[..|steps|] == steps;
    assert SnapshotAt(steps, maxBuffer, used, |steps| - 1);
  }

  /** These events can be replayed on a snapshot of this id to the last. */
  ghost predicate FitsWhole(evs: seq<Diff>, id: int) {
    exists j: nat :: Fits(evs, id, j)
  }

  /** A snapshot that does not end the attempt leaves the events from the first one on that does not fit it. */
  lemma SnapshotLeaves(s: Sync, snap: Snapshot, maxBuffer: nat) returns (i: nat)
    requires s.task.Fetching? && !Synced(Next(s, Arrives(snap), maxBuffer))
    ensures var t := Next(s, Arrives(snap), maxBuffer);
            && i < |s.buffer| && t == Sync(EMPTY, s.buffer[i..], Sleeping, s.gaps, s.resyncs + 1)
            && FitsWhole(s.buffer[..i], snap.lastId) && !FitsWhole(s.buffer[..i + 1], snap.lastId)
  {
    var b := FromSnapshot(snap);
    ReplayLeaves(b, s.buffer);
    i := |s.buffer| - |Replayed(b, s.buffer).1|;
    StopsAt(b, s.buffer, i);
    ReplayFinishes(b, s.buffer[..i]);
    ReplayFinishes(b, s.buffer[..i + 1]);
    hide Replayed;
    hide Fits;
  }

  lemma {:induction false} StopsAt(b: Book, evs: seq<Diff>, i: nat)
    requires b.id.Some? && Replayed(b, evs).1 != [] && i == |evs| - |Replayed(b, evs).1|
    ensures i < |evs| && Replayed(b, evs[..i]).1 == [] && Replayed(b, evs[..i + 1]).1 != []
    decreases |evs|
  {
    hide WithLevels;
    ReplayLeaves(b, evs);
    if Check(b, evs[0]) == Applied || Check(b, evs[0]) == Dropped {
      var c := if Check(b, evs[0]) == Applied then WithDiff(b, evs[0]) else b;
      ReplayLeaves(c, evs[1..]);
      StopsAt(c, evs[1..], i - 1);
      assert evs[..i][1..] == evs[1..][..i - 1] && evs[..i + 1][1..] == evs[1..][..i];
      assert evs[..i][0] == evs[0] && evs[..i + 1][0] == evs[0];
    } else {
      assert evs[..0] == [] && evs[..1][0] == evs[0];
    }
  }

  /** The other steps of the task: a failed fetch waits and keeps everything, waking up fetches again, and a reset
      drops task, buffer and book; out of turn the first two do nothing. */
  lemma TaskIs(s: Sync, maxBuffer: nat)
    ensures Next(s, FetchFails, maxBuffer) == s.(task := if s.task == Fetching then Sleeping else s.task)
    ensures Next(s, Wake, maxBuffer) == s.(task := if s.task == Sleeping then Fetching else s.task)
    ensures Next(s, Step.Reset, maxBuffer) == Sync(Book(map[], map[], None, false), [], NoTask, s.gaps, s.resyncs)
  {
  }

  // ---- when a snapshot is enough --------------------------------------------

  /** The events delivered by these steps. */
  ghost function Delivered(steps: seq<Step>): seq<Diff> {
    if steps == [] then []
    else
      var before, step := Delivered(steps[..|steps| - 1]), steps[|steps| - 1];
      if step.Deliver? then before + [step.ev] else before
  }

  /** Some snapshot among these steps is newer than the event. */
  ghost predicate Outdated(steps: seq<Step>, ev: Diff) {
    exists p :: 0 <= p < |steps| && steps[p].Arrives? && ev.lastId < steps[p].snap.lastId
  }

  /** Where a run without loss stands: still fetching with all events but outdated ones in the buffer, done with
      a snapshot newer than every event, or following the stream. */
  ghost predicate Holds(steps: seq<Step>, s: Sync, evs: seq<Diff>) {
    if !s.task.NoTask? then
      exists k: nat :: HoldsFrom(steps, s, evs, k)
    else if s.book.id.None? then evs == [] && s.book == EMPTY && s.buffer == []
    else if !s.book.ready then
      && (exists p :: 0 <= p < |steps| && steps[p].Arrives? && s.book.id == Some(steps[p].snap.lastId))
      && forall i :: 0 <= i < |evs| ==> evs[i].lastId < s.book.id.value
    else evs != [] && s.book.id == Some(evs[|evs| - 1].lastId)
  }

  ghost predicate HoldsFrom(steps: seq<Step>, s: Sync, evs: seq<Diff>, k: nat) {
    && k < |evs| && s.buffer == evs[k..] && forall i :: 0 <= i < k ==> Outdated(steps, evs[i])
  }

  lemma OutdatedStays(steps: seq<Step>, ev: Diff)
    requires steps != [] && Outdated(steps[..|steps| - 1], ev)
    ensures Outdated(steps, ev)
  {
    var p :| 0 <= p < |steps| - 1 && steps[p].Arrives? && ev.lastId < steps[p].snap.lastId;
    assert steps[p] == steps[..|steps| - 1][p];
  }

  lemma {:induction false} ChainPrefix(evs: seq<Diff>, n: nat)
    requires Chain(evs) && n <= |evs|
    ensures Chain(evs[..n])
  {
    if n <= 1 {
    } else {
      ChainPrefix(evs[1..], n - 1);
      assert evs[..n][1..] == evs[1..][..n - 1];
    }
  }

  /** One more step of a run without loss. */
  lemma HoldsOn(steps: seq<Step>, s: Sync, evs: seq<Diff>, maxBuffer: nat)
    requires steps != [] && Chain(evs) && Ranges(evs) && |evs| <= maxBuffer
    requires steps[|steps| - 1] != Step.Reset && evs == Delivered(steps)
    requires Holds(steps[..|steps| - 1], s, Delivered(steps[..|steps| - 1]))
    ensures Holds(steps, Next(s, steps[|steps| - 1], maxBuffer), evs)
  {
    match steps[|steps| - 1] {
      case Deliver(ev) => HoldsDelivery(steps, s, evs, maxBuffer);
      case Arrives(snap) =>
        if s.task.Fetching? {
          HoldsSnapshot(steps, s, evs, snap, maxBuffer);
        } else {
          HoldsStill(steps, s, s, evs);
        }
      case FetchFails => HoldsStill(steps, s, Next(s, FetchFails, maxBuffer), evs);
      case Wake => HoldsStill(steps, s, Next(s, Wake, maxBuffer), evs);
      case Reset =>
    }
    hide *;
  }

  lemma HoldsStill(steps: seq<Step>, s: Sync, t: Sync, evs: seq<Diff>)
    requires steps != [] && Holds(steps[..|steps| - 1], s, evs)
    requires t == s || (!s.task.NoTask? && !t.task.NoTask? && t == s.(task := t.task))
    ensures Holds(steps, t, evs)
  {
    var before := steps[..|steps| - 1];
    if !s.task.NoTask? {
      var k: nat :| HoldsFrom(before, s, evs, k);
      forall i | 0 <= i < k ensures Outdated(steps, evs[i]) {
        OutdatedStays(steps, evs[i]);
      }
      assert HoldsFrom(steps, t, evs, k);
    } else if s.book.id.Some? && !s.book.ready {
      var p :| 0 <= p < |before| && before[p].Arrives? && s.book.id == Some(before[p].snap.lastId);
      assert steps[p] == before[p];
    }
    hide Outdated;
  }

  lemma HoldsDelivery(steps: seq<Step>, s: Sync, evs: seq<Diff>, maxBuffer: nat)
    requires steps != [] && Chain(evs) && Ranges(evs) && |evs| <= maxBuffer
    requires steps[|steps| - 1].Deliver? && evs == Delivered(steps)
    requires Holds(steps[..|steps| - 1], s, Delivered(steps[..|steps| - 1]))
    ensures Holds(steps, Next(s, steps[|steps| - 1], maxBuffer), evs)
  {
    var before, ev := steps[..|steps| - 1], steps[|steps| - 1].ev;
    var old_, n := Delivered(before), |evs| - 1;
    assert evs == old_ + [ev];
    hide WithLevels;
    hide Outdated;
    hide Delivered;
    if !s.task.NoTask? {
      WaitsOn(steps, s, old_, ev, maxBuffer);
    } else if s.book.id.None? {
      assert HoldsFrom(steps, Next(s, Deliver(ev), maxBuffer), evs, 0);
    } else if s.book.ready {
      ChainGrows(evs, n - 1, n);
    } else {
      BehindSnapshot(steps, s, old_, ev, maxBuffer);
    }
    hide HoldsFrom;
  }

  lemma WaitsOn(steps: seq<Step>, s: Sync, evs: seq<Diff>, ev: Diff, maxBuffer: nat)
    requires steps != [] && |evs| < maxBuffer && !s.task.NoTask? && Holds(steps[..|steps| - 1], s, evs)
    ensures Holds(steps, Next(s, Deliver(ev), maxBuffer), evs + [ev])
  {
    hide Outdated;
    var k: nat :| HoldsFrom(steps[..|steps| - 1], s, evs, k);
    SuffixGrows(evs, k, ev, maxBuffer);
    forall i | 0 <= i < k ensures Outdated(steps, (evs + [ev])[i]) {
      OutdatedStays(steps, evs[i]);
    }
    assert HoldsFrom(steps, Next(s, Deliver(ev), maxBuffer), evs + [ev], k);
  }

  /** The first event after a snapshot that was newer than all before it. */
  lemma BehindSnapshot(steps: seq<Step>, s: Sync, evs: seq<Diff>, ev: Diff, maxBuffer: nat)
    requires steps != [] && s.task.NoTask? && s.book.id.Some? && !s.book.ready && Holds(steps[..|steps| - 1], s, evs)
    ensures Holds(steps, Next(s, Deliver(ev), maxBuffer), evs + [ev])
  {
    hide WithLevels;
    var before, n := steps[..|steps| - 1], |evs|;
    var p :| 0 <= p < |before| && before[p].Arrives? && s.book.id == Some(before[p].snap.lastId);
    assert steps[p] == before[p];
    if Check(s.book, ev) == Gap {
      forall i | 0 <= i < n ensures Outdated(steps, (evs + [ev])[i]) {
        Outdates(steps, p, evs[i]);
      }
      assert (evs + [ev])[n..] == [ev];
      assert HoldsFrom(steps, Next(s, Deliver(ev), maxBuffer), evs + [ev], n);
    }
  }

  lemma Outdates(steps: seq<Step>, p: nat, ev: Diff)
    requires p < |steps| && steps[p].Arrives? && ev.lastId < steps[p].snap.lastId
    ensures Outdated(steps, ev)
  {
  }

  /** What a replay without loss comes to: done and following, done with a snapshot newer than every event, or
      stopped at the first event beyond the snapshot. */
  ghost predicate Comes(id: int, evs: seq<Diff>, r: Book, rest: seq<Diff>) {
    if rest == [] && r.ready then evs != [] && r.id == Some(evs[|evs| - 1].lastId)
    else
      && |rest| <= |evs| && rest == evs[|evs| - |rest|..] && (if rest == [] then r.id == Some(id) else r == EMPTY)
      && forall i :: 0 <= i < |evs| - |rest| ==> evs[i].lastId < id
  }

  lemma {:induction false} NoLossReplay(b: Book, evs: seq<Diff>)
    requires !b.ready && b.id.Some? && Chain(evs) && Ranges(evs)
    ensures Comes(b.id.value, evs, Replayed(b, evs).0, Replayed(b, evs).1)
    decreases |evs|
  {
    hide *;
    if evs == [] {
      NothingComes(b);
    } else if Check(b, evs[0]) == Applied {
      FirstApplied(b, evs);
      AppliedComes(b, evs);
    } else if Check(b, evs[0]) == Dropped {
      ChainTail(evs, 1);
      RangesTail(evs, 1);
      NoLossReplay(b, evs[1..]);
      FirstDropped(b, evs);
      DroppedComes(b.id.value, evs, Replayed(b, evs).0, Replayed(b, evs).1);
    } else {
      GapComes(b, evs);
    }
  }

  lemma NothingComes(b: Book)
    requires !b.ready && b.id.Some?
    ensures Comes(b.id.value, [], Replayed(b, []).0, Replayed(b, []).1)
  {
  }

  lemma GapComes(b: Book, evs: seq<Diff>)
    requires !b.ready && b.id.Some? && evs != [] && Check(b, evs[0]) != Applied && Check(b, evs[0]) != Dropped
    ensures Comes(b.id.value, evs, Replayed(b, evs).0, Replayed(b, evs).1)
  {
  }

  lemma AppliedComes(b: Book, evs: seq<Diff>)
    requires b.id.Some? && evs != [] && Check(b, evs[0]) == Applied && Chain(evs)
    requires Replayed(b, evs) == Replayed(WithDiff(b, evs[0]), evs[1..])
    ensures Comes(b.id.value, evs, Replayed(b, evs).0, Replayed(b, evs).1)
  {
    var c, rest := WithDiff(b, evs[0]), evs[1..];
    LiveReplay(c, rest);
    ReplayLeaves(c, rest);
    hide Replayed;
    hide WithLevels;
  }

  lemma DroppedComes(id: int, evs: seq<Diff>, r: Book, rest: seq<Diff>)
    requires evs != [] && evs[0].lastId < id && Comes(id, evs[1..], r, rest)
    ensures Comes(id, evs, r, rest)
  {
    assert forall i :: 0 < i < |evs| ==> evs[i] == evs[1..][i - 1];
  }

  lemma FirstApplied(b: Book, evs: seq<Diff>)
    requires evs != [] && Check(b, evs[0]) == Applied
    ensures Replayed(b, evs) == Replayed(WithDiff(b, evs[0]), evs[1..])
  {
    hide Check;
    hide WithDiff;
  }

  lemma FirstDropped(b: Book, evs: seq<Diff>)
    requires !b.ready && b.id.Some? && evs != [] && Check(b, evs[0]) == Dropped
    ensures Replayed(b, evs) == Replayed(b, evs[1..]) && evs[0].lastId < b.id.value
  {
    hide WithDiff;
  }

  /** The attempt failed: what it has used up is outdated. */
  lemma FailedHolds(steps: seq<Step>, s: Sync, evs: seq<Diff>, k: nat, t: Sync)
    requires steps != [] && steps[|steps| - 1].Arrives? && HoldsFrom(steps[..|steps| - 1], s, evs, k)
    requires t.task == Sleeping && t.buffer != [] && |t.buffer| <= |s.buffer|
    requires t.buffer == s.buffer[|s.buffer| - |t.buffer|..]
    requires forall i :: 0 <= i < |s.buffer| - |t.buffer| ==> s.buffer[i].lastId < steps[|steps| - 1].snap.lastId
    ensures Holds(steps, t, evs)
  {
    hide Outdated;
    var j := |evs| - |t.buffer|;
    forall i | 0 <= i < j ensures Outdated(steps, evs[i]) {
      if i < k {
        OutdatedStays(steps, evs[i]);
      } else {
        assert evs[i] == s.buffer[i - k];
        Outdates(steps, |steps| - 1, evs[i]);
      }
    }
    assert HoldsFrom(steps, t, evs, j);
  }

  lemma AllOlder(evs: seq<Diff>, k: nat, id: int)
    requires k < |evs| && Chain(evs) && Ranges(evs) && forall i :: k <= i < |evs| ==> evs[i].lastId < id
    ensures forall i :: 0 <= i < |evs| ==> evs[i].lastId < id
  {
    forall i | 0 <= i < k ensures evs[i].lastId < id {
      ChainGrows(evs, i, k);
    }
  }

  lemma HoldsSnapshot(steps: seq<Step>, s: Sync, evs: seq<Diff>, snap: Snapshot, maxBuffer: nat)
    requires steps != [] && Chain(evs) && Ranges(evs) && s.task.Fetching?
    requires steps[|steps| - 1] == Arrives(snap) && Holds(steps[..|steps| - 1], s, evs)
    ensures Holds(steps, Next(s, Arrives(snap), maxBuffer), evs)
  {
    hide Outdated;
    var k: nat :| HoldsFrom(steps[..|steps| - 1], s, evs, k);
    var b, t := FromSnapshot(snap), Next(s, Arrives(snap), maxBuffer);
    ChainTail(evs, k);
    NoLossReplay(b, s.buffer);
    SnapshotDone(s, snap, maxBuffer);
    hide *;
    SnapshotHolds(steps, s, evs, k, snap, t);
  }

  lemma SnapshotDone(s: Sync, snap: Snapshot, maxBuffer: nat)
    requires s.task.Fetching?
    ensures var (t, (r, rest)) := (Next(s, Arrives(snap), maxBuffer), Replayed(FromSnapshot(snap), s.buffer));
            t.book == r && t.buffer == rest && t.task == if rest == [] then NoTask else Sleeping
    ensures FromSnapshot(snap).id == Some(snap.lastId) && !FromSnapshot(snap).ready
  {
    hide Replayed;
  }

  lemma SnapshotHolds(steps: seq<Step>, s: Sync, evs: seq<Diff>, k: nat, snap: Snapshot, t: Sync)
    requires steps != [] && Chain(evs) && Ranges(evs)
    requires steps[|steps| - 1] == Arrives(snap) && HoldsFrom(steps[..|steps| - 1], s, evs, k)
    requires Comes(snap.lastId, s.buffer, t.book, t.buffer) && t.task == if t.buffer == [] then NoTask else Sleeping
    ensures Holds(steps, t, evs)
  {
    hide Outdated;
    hide Chain;
    if t.buffer != [] {
      FailedHolds(steps, s, evs, k, t);
    } else if !t.book.ready {
      forall i | k <= i < |evs| ensures evs[i].lastId < snap.lastId {
        assert evs[i] == s.buffer[i - k];
      }
      AllOlder(evs, k, snap.lastId);
      assert steps[|steps| - 1].Arrives?;
    } else {
      assert s.buffer[|s.buffer| - 1] == evs[|evs| - 1];
    }
    hide HoldsFrom;
  }

  lemma {:induction false} DeliveredParts(first: seq<Step>, after: seq<Step>)
    ensures Delivered(first + after) == Delivered(first) + Delivered(after)
  {
    if after == [] {
      assert first + after == first;
    } else {
      assert (first + after)[..|first + after| - 1] == first + after[..|after| - 1];
      DeliveredParts(first, after[..|after| - 1]);
    }
  }

  /** Nothing lost since the start or the last reset, and no more events than the buffer holds. */
  ghost predicate NoLoss(first: seq<Step>, after: seq<Step>, maxBuffer: nat) {
    && (first != [] ==> first[|first| - 1] == Step.Reset) && Step.Reset !in after
    && Chain(Delivered(after)) && Ranges(Delivered(after)) && |Delivered(after)| <= maxBuffer
  }

  lemma {:induction false} NoLossHolds(first: seq<Step>, after: seq<Step>, maxBuffer: nat)
    requires NoLoss(first, after, maxBuffer)
    ensures Holds(after, RunOf(first + after, maxBuffer), Delivered(after))
  {
    if after == [] {
      assert first + after == first;
      hide Next;
      if first != [] {
        ResetState(first, maxBuffer);
      }
    } else {
      var n := |after| - 1;
      var evs := Delivered(after);
      LastDelivery(after);
      hide *;
      ChainPrefix(evs, |Delivered(after[..n])|);
      NoLossPrefix(first, after, maxBuffer);
      NoLossHolds(first, after[..n], maxBuffer);
      assert (first + after)[..|first + after| - 1] == first + after[..n];
      LastStep(first + after, maxBuffer);
      NoLossIs(first, after, maxBuffer);
      HoldsOn(after, RunOf(first + after[..n], maxBuffer), evs, maxBuffer);
    }
  }

  lemma LastDelivery(steps: seq<Step>)
    requires steps != []
    ensures Delivered(steps[..|steps| - 1]) <= Delivered(steps)
  {
  }

  lemma NoLossPrefix(first: seq<Step>, after: seq<Step>, maxBuffer: nat)
    requires after != [] && NoLoss(first, after, maxBuffer)
    ensures NoLoss(first, after[..|after| - 1], maxBuffer)
  {
    LastDelivery(after);
    ChainPrefix(Delivered(after), |Delivered(after[..|after| - 1])|);
    hide Delivered;
    hide Chain;
  }

  lemma NoLossIs(first: seq<Step>, after: seq<Step>, maxBuffer: nat)
    requires after != [] && NoLoss(first, after, maxBuffer)
    ensures Chain(Delivered(after)) && Ranges(Delivered(after)) && |Delivered(after)| <= maxBuffer
    ensures after[|after| - 1] != Step.Reset
  {
    hide Delivered;
    hide Chain;
  }

  lemma ResetState(first: seq<Step>, maxBuffer: nat)
    requires first != [] && first[|first| - 1] == Step.Reset
    ensures var s := RunOf(first, maxBuffer); s.task.NoTask? && s.book == EMPTY && s.buffer == []
  {
  }

  lemma NotOutdated(steps: seq<Step>, ev: Diff, snap: Snapshot)
    requires snap.lastId <= ev.lastId
    requires forall p :: 0 <= p < |steps| && steps[p].Arrives? ==> steps[p].snap.lastId <= snap.lastId
    ensures !Outdated(steps, ev)
  {
  }

  /** A snapshot inside an event delivered since the last reset, none older than those that came before it, ends
      the resynchronisation: the copy stands at the last event delivered and follows the stream. */
  lemma SnapshotIsEnough(first: seq<Step>, after: seq<Step>, snap: Snapshot, j: nat, maxBuffer: nat)
    requires NoLoss(first, after, maxBuffer) && j < |Delivered(after)|
    requires Delivered(after)[j].firstId <= snap.lastId <= Delivered(after)[j].lastId
    requires forall p :: 0 <= p < |after| && after[p].Arrives? ==> after[p].snap.lastId <= snap.lastId
    requires !RunOf(first + after, maxBuffer).task.Sleeping?
    ensures var t, evs := RunOf(first + after + [Arrives(snap)], maxBuffer), Delivered(after);
            t.task.NoTask? && t.book.ready && t.book.id == Some(evs[|evs| - 1].lastId)
  {
    hide *;
    var s, evs := RunOf(first + after, maxBuffer), Delivered(after);
    NoLossHolds(first, after, maxBuffer);
    NoLossChain(first, after, maxBuffer);
    OneMore(first + after, Arrives(snap), maxBuffer);
    NotOutdated(after, evs[j], snap);
    EnoughFor(after, s, evs, snap, j, maxBuffer);
  }

  lemma NoLossChain(first: seq<Step>, after: seq<Step>, maxBuffer: nat)
    requires NoLoss(first, after, maxBuffer)
    ensures Chain(Delivered(after)) && Ranges(Delivered(after))
  {
    hide Chain;
    hide Delivered;
  }

  lemma EnoughFor(after: seq<Step>, s: Sync, evs: seq<Diff>, snap: Snapshot, j: nat, maxBuffer: nat)
    requires Holds(after, s, evs) && Chain(evs) && Ranges(evs) && !s.task.Sleeping?
    requires j < |evs| && evs[j].firstId <= snap.lastId <= evs[j].lastId && !Outdated(after, evs[j])
    requires forall p :: 0 <= p < |after| && after[p].Arrives? ==> after[p].snap.lastId <= snap.lastId
    ensures var t := Next(s, Arrives(snap), maxBuffer);
            t.task.NoTask? && t.book.ready && t.book.id == Some(evs[|evs| - 1].lastId)
  {
    hide Outdated;
    hide Chain;
    hide Ranges;
    if !s.task.NoTask? {
      var k: nat :| HoldsFrom(after, s, evs, k);
      assert k <= j;
      hide *;
      ChainTail(evs, k);
      RangesTail(evs, k);
      WaitingIsTail(after, s, evs, k);
      EnoughWaiting(s, evs[k..], snap, j - k, maxBuffer);
    } else {
      IdleIsReady(after, s, evs, snap, j);
      hide Holds;
    }
  }

  lemma IdleIsReady(after: seq<Step>, s: Sync, evs: seq<Diff>, snap: Snapshot, j: nat)
    requires Holds(after, s, evs) && s.task.NoTask? && j < |evs| && snap.lastId <= evs[j].lastId
    requires forall p :: 0 <= p < |after| && after[p].Arrives? ==> after[p].snap.lastId <= snap.lastId
    ensures s.book.ready && s.book.id == Some(evs[|evs| - 1].lastId)
  {
    hide HoldsFrom;
  }

  lemma WaitingIsTail(after: seq<Step>, s: Sync, evs: seq<Diff>, k: nat)
    requires HoldsFrom(after, s, evs, k)
    ensures k < |evs| && s.buffer == evs[k..]
  {
  }

  /** With the events from the one around the snapshot in the buffer, the attempt ends. */
  lemma EnoughWaiting(s: Sync, evs: seq<Diff>, snap: Snapshot, j: nat, maxBuffer: nat)
    requires s.task.Fetching? && s.buffer == evs && Chain(evs) && Ranges(evs)
    requires j < |evs| && evs[j].firstId <= snap.lastId <= evs[j].lastId
    ensures var t := Next(s, Arrives(snap), maxBuffer);
            t.task.NoTask? && t.book.ready && t.book.id == Some(evs[|evs| - 1].lastId)
  {
    hide *;
    ContiguousFinishes(s, snap, maxBuffer);
    SnapshotDone(s, snap, maxBuffer);
    NoLossReplay(FromSnapshot(snap), evs);
    EnoughComes(snap.lastId, evs, Next(s, Arrives(snap), maxBuffer), j);
  }

  lemma EnoughComes(id: int, evs: seq<Diff>, t: Sync, j: nat)
    requires Comes(id, evs, t.book, t.buffer) && Synced(t) && (t.task.NoTask? ==> t.buffer == [])
    requires j < |evs| && id <= evs[j].lastId
    ensures t.book.ready && t.book.id == Some(evs[|evs| - 1].lastId) && t.task.NoTask?
  {
  }

  lemma RangesTail(evs: seq<Diff>, k: nat)
    requires k <= |evs| && Ranges(evs)
    ensures Ranges(evs[k..])
  {
  }

  lemma OneMore(steps: seq<Step>, step: Step, maxBuffer: nat)
    ensures RunOf(steps + [step], maxBuffer) == Next(RunOf(steps, maxBuffer), step, maxBuffer)
  {
    assert (steps + [step])[..|steps|] == steps;
    hide Next;
  }
}
