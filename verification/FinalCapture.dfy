/** The end of a run in the dataplane: the consumer thread records positions and finalizes the run
    while the sweep captures frames of it.  One run, two threads, one lock (`_run_lock`). */
module FinalCapture {
  import opened Options

  type Truck = nat

  /** `no` tells the records of a run apart; no operation reads it. */
  datatype Position = Position(lng: int, lat: int, no: nat)

  type Positions = map<Truck, Position>

  /** The shared state of the run.  `slab` is None when it is not resident; `frames` and `status` are on
      disk; `dropped` is the audit counter `positions_dropped`; `latest` is the history of what was
      recorded: every truck's last position. */
  datatype Run = Run(slab: Option<Positions>, updates: Option<nat>, captured: Option<nat>, finalized: bool,
                     frames: seq<Positions>, status: Option<string>, dropped: nat, latest: Positions)

  function Updates(r: Run): nat {
    if r.updates.Some? then r.updates.value else 0
  }

  /** Nothing has been recorded since the last capture. */
  predicate Idle(r: Run) {
    r.captured == Some(Updates(r))
  }

  /** The last frame is exactly `m`; an empty map needs no frame. */
  predicate Covers(frames: seq<Positions>, m: Positions) {
    m == map[] || (frames != [] && frames[|frames| - 1] == m)
  }

  // ---------------------------------------------------------------- the sections

  function Seeded(r: Run): Run {
    if r.slab.None? then r.(slab := Some(map[])) else r
  }

  function Moved(r: Run, t: Truck, p: Position): Run {
    var slab := if r.slab.Some? then r.slab.value else map[];
    r.(slab := Some(slab[t := p]), latest := r.latest[t := p])
  }

  function Counted(r: Run): Run {
    r.(updates := Some(Updates(r) + 1))
  }

  function Noted(r: Run, no: nat): Run {
    r.(captured := Some(no))
  }

  function Written(r: Run, no: nat, frame: Positions): Run {
    r.(frames := r.frames + [frame], captured := Some(no))
  }

  function Dropped(r: Run): Run {
    r.(updates := None, captured := None)
  }

  /** `_positions_uncaptured`: the loss audit of the sweep and of a finalize. */
  predicate Uncaptured(r: Run) {
    r.updates != r.captured
  }

  function Audited(r: Run): Run {
    if Uncaptured(r) then r.(dropped := r.dropped + 1) else r
  }

  /** `capture_run` with nothing in between. */
  function Captured(r: Run, writeOk: bool): Run {
    if Idle(r) || r.slab.None? then r
    else if r.slab.value == map[] then Noted(r, Updates(r))
    else if writeOk then Written(r, Updates(r), r.slab.value)
    else r
  }

  function Evicted(r: Run): Run {
    if r.slab.Some? then Dropped(r).(slab := None) else r
  }

  /** What a finalize that returns leaves. */
  function Closed(r: Run, reason: string, writeOk: bool): Run {
    Evicted(Audited(Captured(r, writeOk)).(status := Some(reason), finalized := true))
  }

  /** A finalize does not start: the kpi rows were not written, or some topic but `run_status` is blocked. */
  predicate Refused(flushed: bool, blocked: set<string>) {
    !flushed || exists t :: t in blocked && t != "run_status"
  }

  predicate CaptureRaises(r: Run, writeOk: bool) {
    !Idle(r) && r.slab.Some? && r.slab.value != map[] && !writeOk
  }

  /** `queue_dump`: one place in the queue, whatever is replayed. */
  function Queued(waiting: Option<string>, reason: string): Option<string> {
    if waiting.Some? && reason == "" then waiting else Some(reason)
  }

  class Dataplane {
    var slab: Option<Positions>
    var updates: Option<nat>
    var captured: Option<nat>
    var finalized: bool
    var frames: seq<Positions>
    var status: Option<string>
    var dropped: nat
    /** The reason under which the run waits for its archive dump. */
    var queued: Option<string>
    ghost var latest: Positions

    ghost function View(): Run
      reads this
    {
      Run(slab, updates, captured, finalized, frames, status, dropped, latest)
    }

    constructor ()
      ensures View() == NewRun([]) && queued == None
    {
      slab, updates, captured, finalized, frames, status := None, None, None, false, [], None;
      dropped, latest, queued := 0, map[], None;
    }

    /** One position record; `seeds` says whether the restore finds something to seed. */
    method OnTripGeo(t: Truck, p: Position, seeds: bool) returns (admitted: bool)
      modifies `slab, `updates, `latest
      ensures admitted == !old(finalized)
      ensures View() == if admitted then Counted(Moved(if seeds then Seeded(old(View())) else old(View()), t, p))
                        else old(View())
    {
      admitted := !finalized;
      if finalized {
        return;
      }
      if seeds && slab.None? {
        slab := Some(map[]);
      }
      slab := Some((if slab.Some? then slab.value else map[])[t := p]);
      latest := latest[t := p];
      updates := Some((if updates.Some? then updates.value else 0) + 1);
    }

    method CaptureRun(writeOk: bool) returns (written: nat, raised: bool)
      modifies `captured, `frames
      ensures View() == Captured(old(View()), writeOk)
      ensures raised <==> CaptureRaises(old(View()), writeOk)
      ensures written == |frames| - |old(frames)|
    {
      written, raised := 0, false;
      var no := if updates.Some? then updates.value else 0;
      if captured == Some(no) {
        return;
      }
      if slab.None? {
        return;
      }
      var frame := slab.value;
      if frame == map[] {
        captured := Some(no);
        return;
      }
      if !writeOk {
        return 0, true;
      }
      frames := frames + [frame];
      captured := Some(no);
      written := 1;
    }

    method EvictRun() returns (evicted: bool)
      modifies `slab, `updates, `captured
      ensures evicted == old(slab).Some?
      ensures View() == Evicted(old(View()))
    {
      evicted := slab.Some?;
      slab := None;
      if evicted {
        updates := None;
        captured := None;
      }
    }

    method AuditPositions()
      modifies `dropped
      ensures View() == Audited(old(View()))
    {
      if updates != captured {
        dropped := dropped + 1;
      }
    }

    /** A run already waiting is not queued again; it takes the new reason, if there is one. */
    method QueueDump(reason: string)
      modifies `queued
      ensures queued == Queued(old(queued), reason)
    {
      if queued.Some? {
        queued := Some(if reason != "" then reason else queued.value);
        return;
      }
      queued := Some(reason);
    }

    /** Flush the kpi rows, refuse while rows of another topic wait for a replay, then capture, audit,
        persist the status, mark, evict, queue the dump; a failure stops it there. */
    method FinalizeRun(reason: string, flushed: bool, blocked: set<string>, writeOk: bool, metaOk: bool)
      returns (raised: bool)
      modifies this
      ensures raised <==> Refused(flushed, blocked) || CaptureRaises(old(View()), writeOk) || !metaOk
      ensures raised ==> queued == old(queued)
      ensures raised ==> View() == if Refused(flushed, blocked) || CaptureRaises(old(View()), writeOk) then old(View())
                                   else Audited(Captured(old(View()), writeOk))
      ensures !raised ==> View() == Closed(old(View()), reason, writeOk) && queued == Queued(old(queued), reason)
    {
      if !flushed {
        return true;
      }
      var holding := blocked - {"run_status"};
      assert forall t :: t in blocked && t != "run_status" ==> t in holding;
      if holding != {} {
        return true;
      }
      var written, failed := CaptureRun(writeOk);
      if failed {
        return true;
      }
      AuditPositions();
      if !metaOk {
        return true;
      }
      status := Some(reason);
      finalized := true;
      var _ := EvictRun();
      QueueDump(reason);
      return false;
    }
  }

  function NewRun(onDisk: seq<Positions>): Run {
    Run(None, None, None, false, onDisk, None, 0, map[])
  }

  // ---------------------------------------------------------------- two threads

  datatype Consumer =
    | Waiting
    | Checked(truck: Truck, at: Position)
    | Restored(truck: Truck, at: Position)
    | Updated
    | FinStart(reason: string)
    | FinBegun(reason: string, no: nat)
    | FinHolding(reason: string, no: nat, frame: Positions)
    | FinCaptured(reason: string)
    | FinAudited(reason: string)
    | FinPersisted
    | FinMarked
    | FinEvicted
    | FinPopped

  datatype Sweep =
    | Resting
    | Known(known: bool)
    | Listed(known: bool, listed: bool)
    | ToCapture
    | Begun(no: nat)
    | Holding(no: nat, frame: Positions)
    | ToPersist

  /** History: `base` is what was recorded before a position that is not yet counted, `lru` whether
      the LRU took the slab, `evicted` and `returned` how far a finalize got. */
  datatype History = History(base: Positions, lru: bool, evicted: bool, returned: bool)

  datatype Sys = Sys(run: Run, consumer: Consumer, sweep: Sweep, history: History)

  datatype Event =
    | Receive(truck: Truck, at: Position)
    | Restore(seeds: bool)
    | Update
    | Count
    | Terminal(reason: string)
    | FinRefuse
    | FinBegin
    | FinSnapshot
    | FinWrite(ok: bool)
    | FinAudit
    | FinPersist(ok: bool)
    | FinMark
    | FinEvict
    | FinPop
    | FinReturn
    | SweepKnown
    | SweepList
    | SweepGone
    | SweepBegin
    | SweepSnapshot
    | SweepWrite(ok: bool)
    | SweepPersist
    | LruEvict

  predicate SweepLocks(w: Sweep) {
    w.Begun? || w.Holding?
  }

  predicate ConsumerLocks(c: Consumer) {
    c.FinBegun? || c.FinHolding?
  }

  predicate LockFree(s: Sys) {
    !SweepLocks(s.sweep) && !ConsumerLocks(s.consumer)
  }

  predicate Enabled(s: Sys, e: Event) {
    match e
    case Receive(_, _) => s.consumer.Waiting? && LockFree(s)
    case Restore(_) => s.consumer.Checked?
    case Update => s.consumer.Restored?
    case Count => s.consumer.Updated? && LockFree(s)
    case Terminal(_) => s.consumer.Waiting?
    case FinRefuse => s.consumer.FinStart?
    case FinBegin => s.consumer.FinStart? && LockFree(s)
    case FinSnapshot => s.consumer.FinBegun?
    case FinWrite(_) => s.consumer.FinHolding?
    case FinAudit => s.consumer.FinCaptured? && LockFree(s)
    case FinPersist(_) => s.consumer.FinAudited?
    case FinMark => s.consumer.FinPersisted? && LockFree(s)
    case FinEvict => s.consumer.FinMarked?
    case FinPop => s.consumer.FinEvicted? && LockFree(s)
    case FinReturn => s.consumer.FinPopped?
    case SweepKnown => s.sweep.Resting? && LockFree(s)
    case SweepList => s.sweep.Known?
    case SweepGone => s.sweep.Listed? && LockFree(s)
    case SweepBegin => s.sweep.ToCapture? && LockFree(s)
    case SweepSnapshot => s.sweep.Begun?
    case SweepWrite(_) => s.sweep.Holding?
    case SweepPersist => s.sweep.ToPersist?
    case LruEvict => s.run.slab.Some?
  }

  /** The consumer's part of a position record. */
  function PositionStep(s: Sys, e: Event): Sys
    requires Enabled(s, e) && (e.Receive? || e.Restore? || e.Update? || e.Count?)
  {
    match e
    case Receive(t, p) => if s.run.finalized then s else s.(consumer := Checked(t, p))
    case Restore(seeds) =>
      s.(consumer := Restored(s.consumer.truck, s.consumer.at), run := if seeds then Seeded(s.run) else s.run)
    case Update =>
      s.(consumer := Updated, run := Moved(s.run, s.consumer.truck, s.consumer.at))
    case Count =>
      s.(consumer := Waiting, run := Counted(s.run), history := s.history.(base := s.run.latest))
  }

  /** The capture inside a finalize. */
  function FinalCaptureStep(s: Sys, e: Event): Sys
    requires Enabled(s, e) && (e.FinBegin? || e.FinSnapshot? || e.FinWrite?)
  {
    match e
    case FinBegin =>
      s.(consumer := if Idle(s.run) then FinCaptured(s.consumer.reason)
                     else FinBegun(s.consumer.reason, Updates(s.run)))
    case FinSnapshot =>
      if s.run.slab.None? then s.(consumer := FinCaptured(s.consumer.reason))
      else if s.run.slab.value == map[] then
        s.(consumer := FinCaptured(s.consumer.reason), run := Noted(s.run, s.consumer.no))
      else s.(consumer := FinHolding(s.consumer.reason, s.consumer.no, s.run.slab.value))
    case FinWrite(ok) =>
      if !ok then s.(consumer := Waiting)
      else s.(consumer := FinCaptured(s.consumer.reason), run := Written(s.run, s.consumer.no, s.consumer.frame))
  }

  /** The rest of a finalize: the refusal before its capture and all that follows the capture. */
  predicate IsFinish(e: Event) {
    || e.Terminal? || e.FinRefuse? || e.FinAudit? || e.FinPersist? || e.FinMark? || e.FinEvict? || e.FinPop?
    || e.FinReturn?
  }

  function FinishStep(s: Sys, e: Event): Sys
    requires Enabled(s, e)
    requires IsFinish(e)
  {
    match e
    case FinRefuse => s.(consumer := Waiting)
    case Terminal(reason) => s.(consumer := FinStart(reason))
    case FinAudit => s.(consumer := FinAudited(s.consumer.reason), run := Audited(s.run))
    case FinPersist(ok) =>
      if !ok then s.(consumer := Waiting)
      else s.(consumer := FinPersisted, run := s.run.(status := Some(s.consumer.reason)))
    case FinMark => s.(consumer := FinMarked, run := s.run.(finalized := true))
    case FinEvict =>
      s.(consumer := if s.run.slab.Some? then FinEvicted else FinPopped, run := s.run.(slab := None),
         history := s.history.(evicted := true))
    case FinPop => s.(consumer := FinPopped, run := Dropped(s.run))
    case FinReturn => s.(consumer := Waiting, history := s.history.(returned := true))
  }

  /** The sweep takes the run for gone: it had counters, was not listed, and is not finalized. */
  predicate BelievedGone(s: Sys) {
    s.sweep.Listed? && s.sweep.known && !s.sweep.listed && !s.run.finalized
  }

  function SweepStep(s: Sys, e: Event): Sys
    requires Enabled(s, e) && (e.SweepKnown? || e.SweepList? || e.SweepGone? || e.SweepPersist?)
  {
    match e
    case SweepKnown => s.(sweep := Known(s.run.updates.Some?))
    case SweepList => s.(sweep := Listed(s.sweep.known, s.run.slab.Some?))
    case SweepGone =>
      s.(run := if BelievedGone(s) then Dropped(Audited(s.run)) else s.run,
         sweep := if s.sweep.listed then ToCapture else Resting)
    case SweepPersist => s.(sweep := Resting)
  }

  function SweepCaptureStep(s: Sys, e: Event): Sys
    requires Enabled(s, e) && (e.SweepBegin? || e.SweepSnapshot? || e.SweepWrite?)
  {
    match e
    case SweepBegin => s.(sweep := if Idle(s.run) then ToPersist else Begun(Updates(s.run)))
    case SweepSnapshot =>
      if s.run.slab.None? then s.(sweep := ToPersist)
      else if s.run.slab.value == map[] then s.(sweep := ToPersist, run := Noted(s.run, s.sweep.no))
      else s.(sweep := Holding(s.sweep.no, s.run.slab.value))
    case SweepWrite(ok) =>
      if !ok then s.(sweep := Resting)
      else s.(sweep := ToPersist, run := Written(s.run, s.sweep.no, s.sweep.frame))
  }

  function Apply(s: Sys, e: Event): Sys
    requires Enabled(s, e)
  {
    match e
    case LruEvict => s.(run := s.run.(slab := None), history := s.history.(lru := true))
    case Receive(_, _) => PositionStep(s, e)
    case Restore(_) => PositionStep(s, e)
    case Update => PositionStep(s, e)
    case Count => PositionStep(s, e)
    case FinBegin => FinalCaptureStep(s, e)
    case FinSnapshot => FinalCaptureStep(s, e)
    case FinWrite(_) => FinalCaptureStep(s, e)
    case SweepKnown => SweepStep(s, e)
    case SweepList => SweepStep(s, e)
    case SweepGone => SweepStep(s, e)
    case SweepPersist => SweepStep(s, e)
    case SweepBegin => SweepCaptureStep(s, e)
    case SweepSnapshot => SweepCaptureStep(s, e)
    case SweepWrite(_) => SweepCaptureStep(s, e)
    case _ => FinishStep(s, e)
  }

  /** A process starts with nothing resident; `onDisk` are frames of earlier processes. */
  function Initial(onDisk: seq<Positions>): Sys {
    Sys(NewRun(onDisk), Waiting, Resting, History(map[], false, false, false))
  }

  ghost predicate IsTrace(trace: seq<Sys>, events: seq<Event>) {
    && |trace| == |events| + 1 && (exists onDisk :: trace[0] == Initial(onDisk))
    && forall i :: 0 <= i < |events| ==> Enabled(trace[i], events[i]) && trace[i + 1] == Apply(trace[i], events[i])
  }

  /** The three sections of a capture, when nothing comes between them, are `CaptureRun`. */
  lemma CaptureInSections(s: Sys, ok: bool)
    requires s.consumer.FinStart? && LockFree(s)
    ensures var begun := Apply(s, FinBegin);
            var seen := if begun.consumer.FinBegun? then Apply(begun, FinSnapshot) else begun;
            var done := if seen.consumer.FinHolding? then Apply(seen, FinWrite(ok)) else seen;
            done.run == Captured(s.run, ok) && (done.consumer.Waiting? <==> CaptureRaises(s.run, ok))
  {
  }

  // ---------------------------------------------------------------- the invariant

  /** What the slab holds, until a finalize evicts it. */
  predicate SlabInv(s: Sys) {
    if s.history.evicted then s.run.slab == None
    else
      && (s.run.slab.Some? ==> s.run.slab.value == s.run.latest)
      && (s.run.slab.None? ==> s.run.latest == map[] && s.run.updates.None?)
  }

  predicate InPosition(c: Consumer) {
    c.Checked? || c.Restored? || c.Updated?
  }

  predicate ConsumerInv(s: Sys) {
    && (InPosition(s.consumer) ==> !s.run.finalized)
    && (s.consumer.Updated? ==> s.run.slab.Some?)
    && (!s.consumer.Updated? ==> s.history.base == s.run.latest)
    && (s.run.finalized <==> s.history.evicted || s.consumer.FinMarked?)
    && (s.consumer.FinEvicted? || s.consumer.FinPopped? ==> s.history.evicted)
    && (s.consumer.FinPersisted? || s.consumer.FinMarked? || s.history.evicted ==> s.run.status.Some?)
    && (s.history.returned ==> s.history.evicted)
  }

  /** An idle run's last frame is what was recorded, up to a position still being counted. */
  predicate IdleInv(s: Sys) {
    && (s.run.captured.Some? ==> s.run.captured.value <= Updates(s.run))
    && (!s.history.evicted && Idle(s.run) ==>
          Covers(s.run.frames, s.history.base) || Covers(s.run.frames, s.run.latest))
  }

  /** A capture in progress holds the lock, the current count and a current snapshot. */
  predicate HoldInv(s: Sys, no: nat, frame: Option<Positions>) {
    && no == Updates(s.run)
    && (frame.Some? ==> !s.history.evicted && (frame.value == s.history.base || frame.value == s.run.latest))
  }

  predicate CaptureInv(s: Sys) {
    && !(SweepLocks(s.sweep) && ConsumerLocks(s.consumer))
    && (s.sweep.Begun? ==> HoldInv(s, s.sweep.no, None))
    && (s.sweep.Holding? ==> HoldInv(s, s.sweep.no, Some(s.sweep.frame)))
    && (s.consumer.FinBegun? ==> HoldInv(s, s.consumer.no, None))
    && (s.consumer.FinHolding? ==> HoldInv(s, s.consumer.no, Some(s.consumer.frame)))
  }

  predicate PastCapture(c: Consumer) {
    c.FinCaptured? || c.FinAudited? || c.FinPersisted? || c.FinMarked?
  }

  /** From the final capture on, the last frame is final and the sweep has nothing to add. */
  predicate FinalInv(s: Sys) {
    PastCapture(s.consumer) || s.history.evicted ==>
      && Covers(s.run.frames, s.run.latest)
      && (s.run.slab.None? || Idle(s.run))
      && !s.sweep.Holding? && (s.sweep.Begun? ==> s.run.slab.None?)
  }

  /** The sweep only believes a run gone that a finalize has evicted. */
  predicate GoneInv(s: Sys) {
    && (s.sweep == Known(true) ==> s.run.slab.Some? || s.history.evicted)
    && (s.sweep == Listed(true, false) ==> s.history.evicted)
  }

  predicate Inv(s: Sys) {
    s.history.lru || (SlabInv(s) && ConsumerInv(s) && IdleInv(s) && CaptureInv(s) && FinalInv(s) && GoneInv(s))
  }

  /** What one step keeps: the invariant, and after a finalize's eviction the frames and the record. */
  predicate Kept(s: Sys, t: Sys) {
    Inv(t) && Later(s, t)
  }

  predicate Later(s: Sys, t: Sys) {
    && (s.history.lru ==> t.history.lru) && (s.history.evicted ==> t.history.evicted)
    && (s.history.returned ==> t.history.returned)
    && (s.history.evicted && !t.history.lru ==> t.run.frames == s.run.frames && t.run.latest == s.run.latest)
  }

  lemma PositionKeeps(s: Sys, e: Event)
    requires Inv(s) && Enabled(s, e) && (e.Receive? || e.Restore? || e.Update? || e.Count?)
    ensures Kept(s, PositionStep(s, e))
  {
  }

  lemma FinalCaptureKeeps(s: Sys, e: Event)
    requires Inv(s) && Enabled(s, e) && (e.FinBegin? || e.FinSnapshot? || e.FinWrite?)
    ensures Kept(s, FinalCaptureStep(s, e))
  {
  }

  lemma FinishKeeps(s: Sys, e: Event)
    requires Inv(s) && Enabled(s, e)
    requires IsFinish(e)
    ensures Kept(s, FinishStep(s, e))
  {
  }

  lemma SweepKeeps(s: Sys, e: Event)
    requires Inv(s) && Enabled(s, e) && (e.SweepKnown? || e.SweepList? || e.SweepGone? || e.SweepPersist?)
    ensures Kept(s, SweepStep(s, e))
  {
  }

  lemma SweepCaptureKeeps(s: Sys, e: Event)
    requires Inv(s) && Enabled(s, e) && (e.SweepBegin? || e.SweepSnapshot? || e.SweepWrite?)
    ensures Kept(s, SweepCaptureStep(s, e))
  {
  }

  lemma StepKeeps(s: Sys, e: Event)
    requires Inv(s) && Enabled(s, e)
    ensures Kept(s, Apply(s, e))
  {
    if e.Receive? || e.Restore? || e.Update? || e.Count? {
      PositionKeeps(s, e);
    } else if e.FinBegin? || e.FinSnapshot? || e.FinWrite? {
      FinalCaptureKeeps(s, e);
    } else if e.SweepKnown? || e.SweepList? || e.SweepGone? || e.SweepPersist? {
      SweepKeeps(s, e);
    } else if e.SweepBegin? || e.SweepSnapshot? || e.SweepWrite? {
      SweepCaptureKeeps(s, e);
    } else if !e.LruEvict? {
      FinishKeeps(s, e);
    }
  }

  lemma InitialInv(onDisk: seq<Positions>)
    ensures Inv(Initial(onDisk))
  {
  }

  lemma {:induction false} TraceInv(trace: seq<Sys>, events: seq<Event>, i: nat)
    requires IsTrace(trace, events) && i < |trace|
    ensures Inv(trace[i])
  {
    if i == 0 {
      var onDisk :| trace[0] == Initial(onDisk);
      InitialInv(onDisk);
    } else {
      TraceInv(trace, events, i - 1);
      StepKeeps(trace[i - 1], events[i - 1]);
    }
  }

  // ---------------------------------------------------------------- complete final capture

  /** If the run was never taken by the LRU, then once a finalize has returned the last frame holds the
      last position of every truck, the status is on disk and the run is evicted. */
  lemma CaptureIsComplete(trace: seq<Sys>, events: seq<Event>, i: nat)
    requires IsTrace(trace, events) && i < |trace| && !trace[i].history.lru
    ensures trace[i].history.returned ==>
              && Covers(trace[i].run.frames, trace[i].run.latest)
              && trace[i].run.status.Some? && trace[i].run.finalized && trace[i].run.slab.None?
  {
    TraceInv(trace, events, i);
  }

  /** The eviction comes after the frame and the status are on disk. */
  lemma EvictionComesLast(trace: seq<Sys>, events: seq<Event>, i: nat)
    requires IsTrace(trace, events) && i < |events| && !trace[i].history.lru && events[i].FinEvict?
    ensures Covers(trace[i].run.frames, trace[i].run.latest) && trace[i].run.status.Some?
    ensures trace[i].run.slab.Some? ==> trace[i].run.slab.value == trace[i].run.latest && Idle(trace[i].run)
  {
    TraceInv(trace, events, i);
  }

  lemma StepLater(trace: seq<Sys>, events: seq<Event>, i: nat)
    requires IsTrace(trace, events) && i < |events|
    ensures Later(trace[i], trace[i + 1])
  {
    TraceInv(trace, events, i);
    StepKeeps(trace[i], events[i]);
  }

  ghost predicate AllLater(trace: seq<Sys>) {
    forall i :: 0 <= i < |trace| - 1 ==> Later(trace[i], trace[i + 1])
  }

  lemma {:induction false} LaterKept(trace: seq<Sys>, i: nat, j: nat)
    requires AllLater(trace) && i <= j < |trace| && trace[i].history.evicted && !trace[j].history.lru
    ensures trace[j].history.evicted && trace[j].run.frames == trace[i].run.frames
    ensures trace[j].run.latest == trace[i].run.latest
    decreases j
  {
    if i < j {
      assert Later(trace[j - 1], trace[j - 1 + 1]);
      LaterKept(trace, i, j - 1);
    }
  }

  /** No frame of the run is written, and no position recorded, after the eviction: not by the sweep,
      not by a replayed terminal. */
  lemma NothingAfterEviction(trace: seq<Sys>, events: seq<Event>, i: nat, j: nat)
    requires IsTrace(trace, events) && i <= j < |trace| && trace[i].history.evicted && !trace[j].history.lru
    ensures trace[j].history.evicted && trace[j].run.frames == trace[i].run.frames
    ensures trace[j].run.latest == trace[i].run.latest
  {
    forall k | 0 <= k < |trace| - 1
      ensures Later(trace[k], trace[k + 1])
    {
      StepLater(trace, events, k);
    }
    LaterKept(trace, i, j);
  }

  /** A terminal may be replayed: the second finalize writes no frame and changes only the reason; and
      if the run had left before the first one with positions on no frame, it counts that loss again. */
  lemma ReplayIsIdempotent(r: Run, reason: string, again: string, writeOk: bool)
    ensures var once := Closed(r, reason, true);
            Closed(once, again, writeOk)
            == once.(status := Some(again),
                     dropped := once.dropped + (if r.slab.None? && Uncaptured(r) then 1 else 0))
  {
  }
}
