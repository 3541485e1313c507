/** Runs in which the loss audit fires rightly, fires falsely and stays silent over a loss. */
module LossAuditRuns {
  import opened Options
  import opened FinalCapture
  import opened LossAudit

  lemma ReachStep(w: Watched, e: Event) returns (n: Watched)
    requires Reachable(w) && Occurs(w, e)
    ensures Reachable(n) && n == After(w, e)
  {
    n := After(w, e);
    var trace, events :| IsWatch(trace, events) && w == trace[|events|];
    assert IsWatch(trace + [n], events + [e]);
    assert (trace + [n])[|events + [e]|] == n;
  }

  lemma ReachBegin()
    ensures Reachable(Begin([]))
  {
    var events: seq<Event> := [];
    assert Foreign([]);
    assert IsWatch([Begin([])], events) && [Begin([])][|events|] == Begin([]);
  }

  function Place(x: int, no: nat): Position {
    Position(x, 0, no)
  }

  /** The consumer has admitted a position and moved the truck. */
  lemma ReachUpdated(w: Watched, t: Truck, x: int) returns (n: Watched)
    requires Reachable(w) && w.sys.consumer.Waiting? && LockFree(w.sys) && !w.sys.run.finalized
    ensures Reachable(n) && n.sys.run == Moved(w.sys.run, t, Place(x, w.marks.recorded + 1))
    ensures n.sys.consumer.Updated? && n.sys.sweep == w.sys.sweep && n.marks.recorded == w.marks.recorded + 1
    ensures n.sys.history == w.sys.history
  {
    n := ReachStep(w, Receive(t, Place(x, w.marks.recorded + 1)));
    n := ReachStep(n, Restore(false));
    n := ReachStep(n, Update);
  }

  lemma ReachReported(w: Watched, t: Truck, x: int) returns (n: Watched)
    requires Reachable(w) && w.sys.consumer.Waiting? && LockFree(w.sys) && !w.sys.run.finalized
    ensures Reachable(n) && n.sys.run == Counted(Moved(w.sys.run, t, Place(x, w.marks.recorded + 1)))
    ensures n.sys.consumer.Waiting? && n.sys.sweep == w.sys.sweep && n.marks.recorded == w.marks.recorded + 1
  {
    n := ReachUpdated(w, t, x);
    n := ReachStep(n, Count);
  }

  lemma ReachLru(w: Watched) returns (n: Watched)
    requires Reachable(w) && w.sys.run.slab.Some?
    ensures Reachable(n) && n.sys.run == w.sys.run.(slab := None) && n.marks == w.marks
    ensures n.sys.consumer == w.sys.consumer && n.sys.sweep == w.sys.sweep
  {
    n := ReachStep(w, LruEvict);
  }

  /** A sweep that finds the run resident; one read of the counters more or less changes nothing. */
  lemma ReachListed(w: Watched) returns (n: Watched)
    requires Reachable(w) && w.sys.sweep.Resting? && LockFree(w.sys) && w.sys.run.slab.Some?
    ensures Reachable(n) && n.sys.sweep.ToCapture? && n.marks == w.marks
    ensures n.sys.run == w.sys.run && n.sys.consumer == w.sys.consumer
  {
    n := ReachStep(w, SweepKnown);
    n := ReachStep(n, SweepList);
    n := ReachStep(n, SweepGone);
  }

  lemma ReachHeld(w: Watched) returns (n: Watched)
    requires Reachable(w) && w.sys.sweep.ToCapture? && LockFree(w.sys) && !Idle(w.sys.run)
    requires w.sys.run.slab.Some? && w.sys.run.slab.value != map[]
    ensures Reachable(n) && n.sys.sweep == Holding(Updates(w.sys.run), w.sys.run.slab.value)
    ensures n.sys.run == w.sys.run && n.sys.consumer == w.sys.consumer && n.marks.recorded == w.marks.recorded
  {
    n := ReachStep(w, SweepBegin);
    n := ReachStep(n, SweepSnapshot);
  }

  lemma ReachWritten(w: Watched) returns (n: Watched)
    requires Reachable(w) && w.sys.sweep.Holding?
    ensures Reachable(n) && n.sys.run == Written(w.sys.run, w.sys.sweep.no, w.sys.sweep.frame)
    ensures n.sys.consumer == w.sys.consumer && n.sys.sweep.Resting? && n.marks.recorded == w.marks.recorded
  {
    n := ReachStep(w, SweepWrite(true));
    n := ReachStep(n, SweepPersist);
  }

  /** A sweep that finds the run resident and moved, and writes its frame. */
  lemma ReachSwept(w: Watched) returns (n: Watched)
    requires Reachable(w) && w.sys.sweep.Resting? && LockFree(w.sys) && !Idle(w.sys.run)
    requires w.sys.run.slab.Some? && w.sys.run.slab.value != map[]
    ensures Reachable(n) && n.sys.run == Written(w.sys.run, Updates(w.sys.run), w.sys.run.slab.value)
    ensures n.sys.consumer == w.sys.consumer && n.sys.sweep.Resting? && n.marks.recorded == w.marks.recorded
  {
    n := ReachListed(w);
    n := ReachHeld(n);
    n := ReachWritten(n);
  }

  lemma ReachAudited(w: Watched) returns (n: Watched)
    requires Reachable(w) && w.sys.consumer.FinCaptured? && LockFree(w.sys)
    ensures Reachable(n) && n.sys.consumer.FinPersisted? && LockFree(n.sys)
    ensures n.sys.run == Audited(w.sys.run).(status := Some(w.sys.consumer.reason))
  {
    n := ReachStep(w, FinAudit);
    n := ReachStep(n, FinPersist(true));
  }

  lemma ReachEvicted(w: Watched) returns (n: Watched)
    requires Reachable(w) && w.sys.consumer.FinPersisted? && LockFree(w.sys)
    ensures Reachable(n) && (n.sys.consumer.FinEvicted? || n.sys.consumer.FinPopped?) && LockFree(n.sys)
    ensures n.sys.run == w.sys.run.(finalized := true, slab := None)
  {
    n := ReachStep(w, FinMark);
    n := ReachStep(n, FinEvict);
  }

  /** The end of a finalize, from the audit to the return. */
  lemma ReachReturned(w: Watched) returns (n: Watched)
    requires Reachable(w) && w.sys.consumer.FinCaptured? && LockFree(w.sys)
    ensures Reachable(n) && n.sys.history.returned
    ensures n.sys.run.frames == w.sys.run.frames && n.sys.run.latest == w.sys.run.latest
    ensures n.sys.run.dropped == Audited(w.sys.run).dropped
  {
    n := ReachAudited(w);
    n := ReachEvicted(n);
    if n.sys.consumer.FinEvicted? {
      n := ReachStep(n, FinPop);
    }
    n := ReachStep(n, FinReturn);
  }

  /** A finalize of a run that is not resident: there is nothing to capture. */
  lemma ReachClosedEmpty(w: Watched) returns (n: Watched)
    requires Reachable(w) && w.sys.consumer.Waiting? && LockFree(w.sys)
    requires w.sys.run.slab.None? && !Idle(w.sys.run)
    ensures Reachable(n) && n.sys.history.returned
    ensures n.sys.run.frames == w.sys.run.frames && n.sys.run.latest == w.sys.run.latest
    ensures n.sys.run.dropped == Audited(w.sys.run).dropped
  {
    n := ReachStep(w, Terminal("completed"));
    n := ReachStep(n, FinBegin);
    n := ReachStep(n, FinSnapshot);
    n := ReachReturned(n);
  }

  /** A finalize of a resident run that has moved since its last frame. */
  lemma ReachClosed(w: Watched) returns (n: Watched)
    requires Reachable(w) && w.sys.consumer.Waiting? && LockFree(w.sys) && !Idle(w.sys.run)
    requires w.sys.run.slab.Some? && w.sys.run.slab.value != map[]
    ensures Reachable(n) && n.sys.history.returned && n.sys.run.latest == w.sys.run.latest
    ensures n.sys.run.frames == w.sys.run.frames + [w.sys.run.slab.value]
    ensures n.sys.run.dropped == w.sys.run.dropped + (if w.sys.run.updates.Some? then 0 else 1)
  {
    n := ReachStep(w, Terminal("completed"));
    n := ReachStep(n, FinBegin);
    n := ReachStep(n, FinSnapshot);
    n := ReachStep(n, FinWrite(true));
    n := ReachReturned(n);
  }

  /** A finalize of an idle run: its last frame stands. */
  lemma ReachClosedIdle(w: Watched) returns (n: Watched)
    requires Reachable(w) && w.sys.consumer.Waiting? && LockFree(w.sys) && Idle(w.sys.run)
    ensures Reachable(n) && n.sys.history.returned
    ensures n.sys.run.frames == w.sys.run.frames && n.sys.run.latest == w.sys.run.latest
    ensures n.sys.run.dropped == Audited(w.sys.run).dropped
  {
    n := ReachStep(w, Terminal("completed"));
    n := ReachStep(n, FinBegin);
    n := ReachReturned(n);
  }

  /** A loss, and the audit fires: the LRU takes the run before any frame of it. */
  lemma LruLosesPositions() returns (w: Watched)
    ensures Reachable(w) && w.sys.history.returned && !Covers(w.sys.run.frames, w.sys.run.latest)
    ensures w.sys.run.dropped == 1
  {
    ReachBegin();
    w := ReachReported(Begin([]), 0, 5);
    w := ReachLru(w);
    w := ReachClosedEmpty(w);
    assert 0 in w.sys.run.latest;
  }

  /** No loss, and the audit fires: the frame was snapped between the update and its count, so that the
      eviction found the run with one position more than it had captured. */
  lemma AuditFiresFalsely() returns (w: Watched)
    ensures Reachable(w) && w.sys.history.returned && Covers(w.sys.run.frames, w.sys.run.latest)
    ensures w.sys.run.dropped == 1
  {
    ReachBegin();
    w := ReachUpdated(Begin([]), 0, 5);
    assert 0 in w.sys.run.slab.value;
    w := ReachSwept(w);
    w := ReachStep(w, Count);
    w := ReachLru(w);
    w := ReachClosedEmpty(w);
  }

  /** A loss, and the audit is silent: another truck revives the run, and the frame that follows brings
      the counters level without the truck that went with the old slab. */
  lemma AuditMissesALoss() returns (w: Watched)
    ensures Reachable(w) && w.sys.history.returned && !Covers(w.sys.run.frames, w.sys.run.latest)
    ensures w.sys.run.dropped == 0
  {
    ReachBegin();
    w := ReachReported(Begin([]), 0, 5);
    w := ReachLru(w);
    w := ReachReported(w, 1, 6);
    assert 0 !in w.sys.run.slab.value && 0 in w.sys.run.latest && 1 in w.sys.run.slab.value;
    w := ReachClosed(w);
  }

  lemma ReachTakenIdle() returns (w: Watched)
    ensures Reachable(w) && w.sys.consumer.Waiting? && w.sys.sweep.Resting? && w.marks.recorded == 1
    ensures w.sys.run == NewRun([]).(updates := Some(1), captured := Some(1), frames := [map[0 := Place(5, 1)]],
                                     latest := map[0 := Place(5, 1)])
  {
    ReachBegin();
    w := ReachReported(Begin([]), 0, 5);
    assert 0 in w.sys.run.slab.value;
    w := ReachSwept(w);
    w := ReachLru(w);
  }

  /** The sweep lists the resident runs after the LRU has taken this one. */
  lemma ReachUnlisted() returns (w: Watched)
    ensures Reachable(w) && w.sys.consumer.Waiting? && w.sys.sweep == Listed(true, false) && w.marks.recorded == 1
    ensures w.sys.run == NewRun([]).(updates := Some(1), captured := Some(1), frames := [map[0 := Place(5, 1)]],
                                     latest := map[0 := Place(5, 1)])
  {
    w := ReachTakenIdle();
    w := ReachStep(w, SweepKnown);
    w := ReachStep(w, SweepList);
  }

  /** And the run is revived before the sweep audits it. */
  lemma ReachRevivedUnderTheSweep() returns (w: Watched)
    ensures Reachable(w) && w.sys.consumer.Waiting? && w.sys.sweep.Resting?
    ensures w.sys.run.slab == Some(w.sys.run.latest) && 0 in w.sys.run.latest
    ensures w.sys.run.updates.None? && w.sys.run.captured.None? && w.sys.run.dropped == 1
  {
    w := ReachUnlisted();
    w := ReachReported(w, 0, 7);
    assert w.sys.run.slab.value == w.sys.run.latest;
    w := ReachStep(w, SweepGone);
  }

  /** No loss, and the audit fires twice: once as the sweep drops the counters of a run that is resident
      again, and once as the run is finalized, its next frame captured under a count of zero. */
  lemma RevivalUnderTheSweepFiresFalsely() returns (w: Watched)
    ensures Reachable(w) && w.sys.history.returned && Covers(w.sys.run.frames, w.sys.run.latest)
    ensures w.sys.run.dropped == 2
  {
    w := ReachRevivedUnderTheSweep();
    assert 0 in w.sys.run.latest;
    w := ReachSwept(w);
    w := ReachClosedIdle(w);
  }
}
