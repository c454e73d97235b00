/**
 * The store's persistence policy (app/services/storage.py:52-89) as a state
 * machine over the dirty flag and the debounce worker tasks.
 *
 * `schedule_save` marks the store dirty, cancels the pending worker and starts
 * a new one; a worker whose sleep completes writes if the store is dirty and
 * clears the flag; `flush_save` cancels the pending worker and writes if dirty;
 * the backup loop writes whenever some pet is alive and leaves the flag alone.
 *
 * Worker tasks are numbered in the order they are started. A cancelled task
 * does not stop at once: the cancellation is delivered the next time the event
 * loop runs it, and the task's `finally` clause runs then. Each worker is taken
 * to have reached its sleep before another handler runs, so a cancellation
 * always runs that clause; a task cancelled before its first step would skip
 * it, and that interleaving is not modelled.
 */
module Persistence {
  import opened Common

  datatype Saver = Saver(
    dirty: bool,
    handle: Option<nat>,   // `_save_task`
    armed: set<nat>,       // workers asleep and not asked to stop
    cancelling: set<nat>,  // workers asked to stop whose cancellation is not yet delivered
    next: nat)             // number of the next worker to start

  const INITIAL: Saver := Saver(false, None, {}, {}, 0)

  /** What the worker's `finally: self._save_task = None` does. */
  datatype Finally =
    | ClearAlways  // as written: also when the worker that ends is no longer the pending one
    | ClearIfOwn   // clear the handle only when it still names the ending worker

  datatype SaverEvent =
    | ScheduleSave
    | FlushSave
    | TimerFires(task: nat)        // the worker's sleep completes
    | CancelDelivered(task: nat)   // the worker receives its cancellation
    | BackupTick(anyAlive: bool)   // one iteration of the backup loop

  datatype Stepped = Stepped(saver: Saver, wrote: bool)

  /** _cancel_save_task: ask the pending worker to stop, forget the handle. */
  function CancelSaveTask(s: Saver): (r: Saver)
    ensures r.handle == None && r.dirty == s.dirty && r.next == s.next
    ensures s.handle.Some? && s.handle.value in s.armed ==>
      r.armed == s.armed - {s.handle.value} && r.cancelling == s.cancelling + {s.handle.value}
    ensures !(s.handle.Some? && s.handle.value in s.armed) ==> r.armed == s.armed && r.cancelling == s.cancelling
  {
    match s.handle
    case Some(t) =>
      if t in s.armed then s.(armed := s.armed - {t}, cancelling := s.cancelling + {t}, handle := None)
      else s.(handle := None)
    case None => s
  }

  function Schedule(s: Saver): Saver {
    var c := CancelSaveTask(s.(dirty := true));
    c.(armed := c.armed + {c.next}, handle := Some(c.next), next := c.next + 1)
  }

  function Flush(s: Saver): Stepped {
    var c := CancelSaveTask(s);
    Stepped(c.(dirty := false), s.dirty)
  }

  function ClearHandle(s: Saver, task: nat, f: Finally): Option<nat> {
    match f
    case ClearAlways => None
    case ClearIfOwn => if s.handle == Some(task) then None else s.handle
  }

  /** A worker wakes: write and clear the flag if dirty, then its `finally` clause. */
  function Fire(s: Saver, task: nat, f: Finally): Stepped {
    if task !in s.armed then Stepped(s, false)
    else Stepped(s.(armed := s.armed - {task}, dirty := false, handle := ClearHandle(s, task, f)), s.dirty)
  }

  /** A cancelled worker receives its cancellation: only its `finally` clause runs. */
  function Cancelled(s: Saver, task: nat, f: Finally): Saver {
    if task !in s.cancelling then s
    else s.(cancelling := s.cancelling - {task}, handle := ClearHandle(s, task, f))
  }

  /** The backup loop writes whenever some pet is alive and never reads or clears the flag. */
  function Backup(s: Saver, anyAlive: bool): (r: Stepped)
    ensures r.saver == s && r.wrote == anyAlive
  {
    Stepped(s, anyAlive)
  }

  function Step(s: Saver, e: SaverEvent, f: Finally): Stepped {
    match e
    case ScheduleSave => Stepped(Schedule(s), false)
    case FlushSave => Flush(s)
    case TimerFires(t) => Fire(s, t, f)
    case CancelDelivered(t) => Stepped(Cancelled(s, t, f), false)
    case BackupTick(a) => Backup(s, a)
  }

  /** Runs a trace of events; returns the final state and the number of writes. */
  function Run(s: Saver, evs: seq<SaverEvent>, f: Finally): (Saver, nat)
    decreases |evs|
  {
    if evs == [] then (s, 0)
    else
      var st := Step(s, evs[0], f);
      var (last, n) := Run(st.saver, evs[1..], f);
      (last, n + (if st.wrote then 1 else 0))
  }

  /**
   * The invariant the corrected policy keeps: at most one worker is armed, it
   * is the one the handle names, and it is the most recently started one.
   */
  ghost predicate Inv(s: Saver) {
    && s.armed == (if s.handle.Some? then {s.handle.value} else {})
    && (s.handle.Some? ==> s.handle.value + 1 == s.next)
    && s.armed !! s.cancelling
    && (forall t :: t in s.cancelling ==> t < s.next)
  }

  lemma InitialInv()
    ensures Inv(INITIAL)
  {
  }

  lemma StepKeepsInv(s: Saver, e: SaverEvent)
    requires Inv(s)
    ensures Inv(Step(s, e, ClearIfOwn).saver)
  {
    match e
    case ScheduleSave =>
      var c := CancelSaveTask(s.(dirty := true));
      assert c.armed == {} && c.next == s.next;
    case FlushSave =>
    case TimerFires(t) =>
    case CancelDelivered(t) =>
    case BackupTick(a) =>
  }

  /**
   * Under the corrected policy a debounced write can only come from the most
   * recently started worker: a worker superseded by a later schedule_save
   * never writes.
   */
  lemma OnlyLatestTimerWrites(s: Saver, t: nat)
    requires Inv(s)
    requires Fire(s, t, ClearIfOwn).wrote
    ensures t + 1 == s.next && s.handle == Some(t)
  {
  }

  ghost predicate Quiet(e: SaverEvent) {
    e.ScheduleSave? || e.CancelDelivered?
  }

  /**
   * A burst of schedule_save calls (with any cancellations delivered in between)
   * writes nothing, leaves the store dirty, and leaves exactly one armed worker:
   * the last one started.
   */
  lemma {:induction false} BurstWritesNothing(s: Saver, evs: seq<SaverEvent>)
    requires Inv(s)
    requires forall i :: 0 <= i < |evs| ==> Quiet(evs[i])
    requires ScheduleSave in evs
    ensures var (last, n) := Run(s, evs, ClearIfOwn);
      n == 0 && Inv(last) && last.dirty && last.handle.Some? && last.armed == {last.handle.value}
    decreases |evs|
  {
    var st := Step(s, evs[0], ClearIfOwn);
    StepKeepsInv(s, evs[0]);
    if |evs| == 1 {
      assert evs[0] == ScheduleSave;
      assert Run(st.saver, evs[1..], ClearIfOwn) == (st.saver, 0);
    } else if ScheduleSave in evs[1..] {
      BurstWritesNothing(st.saver, evs[1..]);
    } else {
      assert evs[0] == ScheduleSave;
      QuietKeepsArmed(st.saver, evs[1..]);
    }
  }

  /** Delivered cancellations alone write nothing and keep the armed worker and the flag. */
  lemma {:induction false} QuietKeepsArmed(s: Saver, evs: seq<SaverEvent>)
    requires Inv(s)
    requires forall i :: 0 <= i < |evs| ==> evs[i].CancelDelivered?
    ensures var (last, n) := Run(s, evs, ClearIfOwn);
      n == 0 && Inv(last) && last.dirty == s.dirty && last.handle == s.handle && last.armed == s.armed
    decreases |evs|
  {
    if evs != [] {
      StepKeepsInv(s, evs[0]);
      QuietKeepsArmed(Step(s, evs[0], ClearIfOwn).saver, evs[1..]);
    }
  }

  /**
   * k schedule_save calls followed by the firing of the one worker left armed
   * give exactly one write; afterwards nothing is armed and the store is clean,
   * so no other worker of the burst can write.
   */
  lemma BurstThenQuietWritesOnce(s: Saver, evs: seq<SaverEvent>)
    requires Inv(s)
    requires forall i :: 0 <= i < |evs| ==> Quiet(evs[i])
    requires ScheduleSave in evs
    ensures var (mid, _) := Run(s, evs, ClearIfOwn);
      mid.handle.Some? &&
      var (last, n) := Run(s, evs + [TimerFires(mid.handle.value)], ClearIfOwn);
      n == 1 && last.armed == {} && !last.dirty && last.handle == None
  {
    BurstWritesNothing(s, evs);
    var (mid, _) := Run(s, evs, ClearIfOwn);
    RunAppend(s, evs, TimerFires(mid.handle.value), ClearIfOwn);
  }

  lemma {:induction false} RunAppend(s: Saver, evs: seq<SaverEvent>, e: SaverEvent, f: Finally)
    ensures var (mid, n) := Run(s, evs, f);
      var st := Step(mid, e, f);
      Run(s, evs + [e], f) == (st.saver, n + if st.wrote then 1 else 0)
    decreases |evs|
  {
    if evs == [] {
      assert [e][1..] == [];
    } else {
      assert (evs + [e])[1..] == evs[1..] + [e];
      RunAppend(Step(s, evs[0], f).saver, evs[1..], e, f);
    }
  }

  /** flush_save writes exactly when the store is dirty, and always leaves it clean with no worker armed. */
  lemma FlushWritesIffDirty(s: Saver)
    requires Inv(s)
    ensures Flush(s).wrote == s.dirty
    ensures !Flush(s).saver.dirty && Flush(s).saver.armed == {} && Inv(Flush(s).saver)
  {
  }

  // ---------------------------------------------------------------------------
  // The policy as written

  /** Four schedule_save calls, each well inside the debounce window of the one before. */
  const BURST: seq<SaverEvent> := [
    ScheduleSave, ScheduleSave, CancelDelivered(0), ScheduleSave,
    TimerFires(1), ScheduleSave, TimerFires(2), TimerFires(3)]

  /**
   * As written, the cancelled worker 0 clears the handle that already names
   * worker 1, so the third schedule_save cannot cancel worker 1. Worker 1 then
   * writes although worker 2 superseded it, the clearing repeats, and the burst
   * produces two writes where the corrected policy produces one.
   */
  lemma SupersededTimerWrites()
    ensures var mid := Run(INITIAL, BURST[..4], ClearAlways).0;
      mid.armed == {1, 2} && mid.next == 3 && Fire(mid, 1, ClearAlways).wrote
    ensures Run(INITIAL, BURST, ClearAlways).1 == 2
    ensures Run(INITIAL, BURST, ClearIfOwn).1 == 1
  {
    BurstAsWritten();
    BurstCorrected();
  }

  /** The burst traced step by step under the clearing as written. */
  lemma BurstAsWritten()
    ensures var mid := Run(INITIAL, BURST[..4], ClearAlways).0;
      mid.armed == {1, 2} && mid.next == 3 && Fire(mid, 1, ClearAlways).wrote
    ensures Run(INITIAL, BURST, ClearAlways).1 == 2
  {
    assert BURST == BURST[..4] + BURST[4..];
    AsWrittenPrefix();
    AsWrittenTail();
    RunConcat(INITIAL, BURST[..4], BURST[4..], ClearAlways);
  }

  /** After the third schedule_save, as written: workers 1 and 2 are both armed. */
  lemma AsWrittenPrefix()
    ensures Run(INITIAL, BURST[..4], ClearAlways) == (Saver(true, Some(2), {1, 2}, {}, 3), 0)
  {
    assert BURST[..4] == [ScheduleSave, ScheduleSave, CancelDelivered(0), ScheduleSave];
    var s1 := Schedule(INITIAL);
    var s2 := Schedule(s1);
    assert s2.armed == {1} && s2.cancelling == {0} && s2.handle == Some(1);
    var s3 := Cancelled(s2, 0, ClearAlways);
    assert s3.handle == None && s3.armed == {1};
    var s4 := Schedule(s3);
    assert s4 == Saver(true, Some(2), {1, 2}, {}, 3);
    assert Run(s3, [ScheduleSave], ClearAlways) == (s4, 0);
    assert Run(s2, [CancelDelivered(0), ScheduleSave], ClearAlways) == (s4, 0);
    assert Run(s1, [ScheduleSave, CancelDelivered(0), ScheduleSave], ClearAlways) == (s4, 0);
  }

  /** The rest of the burst, as written: workers 1 and 2 both write. */
  lemma AsWrittenTail()
    ensures Run(Saver(true, Some(2), {1, 2}, {}, 3), BURST[4..], ClearAlways).1 == 2
  {
    var s4 := Saver(true, Some(2), {1, 2}, {}, 3);
    assert BURST[4..] == [TimerFires(1), ScheduleSave, TimerFires(2), TimerFires(3)];
    var w1 := Fire(s4, 1, ClearAlways);
    assert w1.wrote && w1.saver.handle == None && w1.saver.armed == {2};
    var s6 := Schedule(w1.saver);
    assert s6.armed == {2, 3};
    var w2 := Fire(s6, 2, ClearAlways);
    assert w2.wrote && w2.saver.armed == {3} && !w2.saver.dirty;
    var w3 := Fire(w2.saver, 3, ClearAlways);
    assert !w3.wrote;
    assert Run(w2.saver, [TimerFires(3)], ClearAlways).1 == 0;
    assert Run(s6, [TimerFires(2), TimerFires(3)], ClearAlways).1 == 1;
    assert Run(w1.saver, [ScheduleSave, TimerFires(2), TimerFires(3)], ClearAlways).1 == 1;
  }

  /** The same burst when a worker clears only its own handle. */
  lemma BurstCorrected()
    ensures Run(INITIAL, BURST, ClearIfOwn).1 == 1
  {
    assert BURST == BURST[..4] + BURST[4..];
    CorrectedPrefix();
    CorrectedTail();
    RunConcat(INITIAL, BURST[..4], BURST[4..], ClearIfOwn);
  }

  /** After the third schedule_save, corrected: only worker 2 is armed. */
  lemma CorrectedPrefix()
    ensures Run(INITIAL, BURST[..4], ClearIfOwn) == (Saver(true, Some(2), {2}, {1}, 3), 0)
  {
    assert BURST[..4] == [ScheduleSave, ScheduleSave, CancelDelivered(0), ScheduleSave];
    var s1 := Schedule(INITIAL);
    var f2 := Schedule(s1);
    var f3 := Cancelled(f2, 0, ClearIfOwn);
    assert f3.handle == Some(1) && f3.armed == {1};
    var f4 := Schedule(f3);
    assert f4 == Saver(true, Some(2), {2}, {1}, 3);
    assert Run(f3, [ScheduleSave], ClearIfOwn) == (f4, 0);
    assert Run(f2, [CancelDelivered(0), ScheduleSave], ClearIfOwn) == (f4, 0);
    assert Run(s1, [ScheduleSave, CancelDelivered(0), ScheduleSave], ClearIfOwn) == (f4, 0);
  }

  /** The rest of the burst, corrected: only worker 3 writes. */
  lemma CorrectedTail()
    ensures Run(Saver(true, Some(2), {2}, {1}, 3), BURST[4..], ClearIfOwn).1 == 1
  {
    var f4 := Saver(true, Some(2), {2}, {1}, 3);
    assert BURST[4..] == [TimerFires(1), ScheduleSave, TimerFires(2), TimerFires(3)];
    var g1 := Fire(f4, 1, ClearIfOwn);
    assert !g1.wrote && g1.saver == f4;
    var f6 := Schedule(f4);
    assert f6.armed == {3} && f6.handle == Some(3);
    var g2 := Fire(f6, 2, ClearIfOwn);
    assert !g2.wrote && g2.saver == f6;
    var g3 := Fire(f6, 3, ClearIfOwn);
    assert g3.wrote;
    assert Run(f6, [TimerFires(3)], ClearIfOwn).1 == 1;
    assert Run(f6, [TimerFires(2), TimerFires(3)], ClearIfOwn).1 == 1;
    assert Run(f4, [ScheduleSave, TimerFires(2), TimerFires(3)], ClearIfOwn).1 == 1;
  }

  lemma {:induction false} RunConcat(s: Saver, a: seq<SaverEvent>, b: seq<SaverEvent>, f: Finally)
    ensures var (mid, n) := Run(s, a, f);
      var (last, m) := Run(mid, b, f);
      Run(s, a + b, f) == (last, n + m)
    decreases |a|
  {
    if a == [] {
      assert a + b == b;
    } else {
      assert (a + b)[1..] == a[1..] + b;
      RunConcat(Step(s, a[0], f).saver, a[1..], b, f);
    }
  }
}
