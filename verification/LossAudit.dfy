/** What happens to positions when the LRU takes a run, once or often: exactly when the last frame holds
    every truck's last position, and exactly when the loss audit fires.  The steps are those of
    `FinalCapture`, with marks beside them that no operation reads. */
module LossAudit {
  import opened Options
  import opened FinalCapture

  /** A snapshot: how many positions had been recorded, how many when its slab was created, and whether
      the newest was recorded but not yet counted. */
  datatype Shot = Shot(count: nat, since: nat, ahead: bool)

  /** `recorded` counts the positions of this process and `since` those recorded before the slab was
      created; `held` is a snapshot not yet written, `shot` that of the last frame; `blank` is how many
      had been recorded if the last capture found a slab without trucks; `popped` is how many had been
      counted when the counters were dropped. */
  datatype Marks = Marks(recorded: nat, since: nat, held: Shot, shot: Shot, blank: Option<nat>, popped: nat)

  datatype Watched = Watched(sys: Sys, marks: Marks)

  /** Positions counted: all that are recorded but one that is being counted. */
  function Tallied(w: Watched): int {
    w.marks.recorded - (if w.sys.consumer.Updated? then 1 else 0)
  }

  function Snapped(w: Watched): Marks {
    if w.sys.run.slab.None? then w.marks
    else if w.sys.run.slab.value == map[] then w.marks.(blank := Some(w.marks.recorded))
    else w.marks.(held := Shot(w.marks.recorded, w.marks.since, w.sys.consumer.Updated?))
  }

  function WroteFrame(m: Marks, ok: bool): Marks {
    if ok then m.(shot := m.held, blank := None) else m
  }

  function Forgot(w: Watched): Marks {
    w.marks.(popped := if Tallied(w) < 0 then 0 else Tallied(w), blank := None)
  }

  function MarksAfter(w: Watched, e: Event): Marks {
    match e
    case Restore(seeds) =>
      if seeds && w.sys.run.slab.None? then w.marks.(since := w.marks.recorded) else w.marks
    case Update =>
      w.marks.(recorded := w.marks.recorded + 1,
               since := if w.sys.run.slab.None? then w.marks.recorded else w.marks.since)
    case FinSnapshot => Snapped(w)
    case SweepSnapshot => Snapped(w)
    case FinWrite(ok) => WroteFrame(w.marks, ok)
    case SweepWrite(ok) => WroteFrame(w.marks, ok)
    case SweepGone => if BelievedGone(w.sys) then Forgot(w) else w.marks
    case FinPop => Forgot(w)
    case _ => w.marks
  }

  /** Each record received gets the next number. */
  predicate Occurs(w: Watched, e: Event) {
    Enabled(w.sys, e) && (e.Receive? ==> e.at.no == w.marks.recorded + 1)
  }

  function After(w: Watched, e: Event): Watched
    requires Occurs(w, e)
  {
    Watched(Apply(w.sys, e), MarksAfter(w, e))
  }

  const NO_SHOT: Shot := Shot(0, 0, false)

  function Begin(onDisk: seq<Positions>): Watched {
    Watched(Initial(onDisk), Marks(0, 0, NO_SHOT, NO_SHOT, None, 0))
  }

  /** Frames of earlier processes hold none of this process's records. */
  ghost predicate Foreign(frames: seq<Positions>) {
    forall i, t :: 0 <= i < |frames| && t in frames[i] ==> frames[i][t].no == 0
  }

  ghost predicate IsWatch(trace: seq<Watched>, events: seq<Event>) {
    && |trace| == |events| + 1 && (exists onDisk :: Foreign(onDisk) && trace[0] == Begin(onDisk))
    && forall i :: 0 <= i < |events| ==> Occurs(trace[i], events[i]) && trace[i + 1] == After(trace[i], events[i])
  }

  // ---------------------------------------------------------------- the invariant

  /** The trucks that have reported since `since`. */
  function Recent(latest: Positions, since: nat): Positions {
    map t | t in latest && latest[t].no > since :: latest[t]
  }

  ghost predicate Holds(frame: Positions, no: nat) {
    exists t :: t in frame && frame[t].no == no
  }

  ghost predicate UpTo(frame: Positions, no: nat) {
    forall t :: t in frame ==> frame[t].no <= no
  }

  /** Records are numbered from 1 in the order received. */
  ghost predicate Records(latest: Positions, recorded: nat) {
    && (forall t :: t in latest ==> 1 <= latest[t].no <= recorded)
    && (recorded > 0 ==> Holds(latest, recorded))
  }

  predicate Numbered(c: Consumer, recorded: nat) {
    && (c.Checked? || c.Restored? ==> c.at.no == recorded + 1)
    && (c.Updated? ==> recorded > 0)
  }

  predicate SlabIs(slab: Option<Positions>, latest: Positions, since: nat) {
    slab.Some? ==> slab.value == Recent(latest, since)
  }

  /** What a snapshot holds: exactly the trucks seen since its slab was created, while nothing newer has
      been recorded. */
  ghost predicate ShotIs(frame: Positions, s: Shot, latest: Positions, recorded: nat) {
    && s.since < s.count <= recorded
    && UpTo(frame, s.count)
    && (s.count == recorded ==> frame == Recent(latest, s.since))
  }

  ghost predicate FramesAre(frames: seq<Positions>, s: Shot, latest: Positions, recorded: nat) {
    && (forall i :: 0 <= i < |frames| ==> UpTo(frames[i], s.count))
    && (s.count > 0 ==> frames != [] && ShotIs(frames[|frames| - 1], s, latest, recorded))
  }

  /** What the record, the slab and the frames are, told apart from the threads. */
  ghost predicate RecordIs(r: Run, m: Marks) {
    && Records(r.latest, m.recorded) && SlabIs(r.slab, r.latest, m.since)
    && m.shot.since <= m.since <= m.recorded && (m.blank.Some? ==> m.shot.count <= m.blank.value <= m.since)
    && (m.shot.ahead ==> m.shot.count > 0)
    && FramesAre(r.frames, m.shot, r.latest, m.recorded)
  }

  ghost predicate FrameHeld(w: Watched, frame: Positions, no: nat) {
    && ShotIs(frame, w.marks.held, w.sys.run.latest, w.marks.recorded) && HeldCounts(w, no)
    && w.marks.held.since <= w.marks.since
  }

  ghost predicate HeldIs(w: Watched) {
    && (w.sys.sweep.Holding? ==> FrameHeld(w, w.sys.sweep.frame, w.sys.sweep.no))
    && (w.sys.consumer.FinHolding? ==> FrameHeld(w, w.sys.consumer.frame, w.sys.consumer.no))
    && (w.sys.sweep.Begun? ==> w.sys.sweep.no == Updates(w.sys.run))
    && (w.sys.consumer.FinBegun? ==> w.sys.consumer.no == Updates(w.sys.run))
  }

  predicate HeldCounts(w: Watched, no: nat) {
    && no == Updates(w.sys.run)
    && w.marks.held.count == Tallied(w) + (if w.marks.held.ahead then 1 else 0)
    && w.marks.held.count >= w.marks.shot.count
  }

  predicate Ahead(s: Shot, no: int) {
    s.count == no + (if s.ahead then 1 else 0)
  }

  /** The counters count since they were last dropped. */
  predicate CountersAre(w: Watched) {
    var r, m := w.sys.run, w.marks;
    && m.popped <= Tallied(w)
    && r.updates == (if Tallied(w) == m.popped then None else Some(Tallied(w) - m.popped))
    && m.shot.count <= Tallied(w) + (if m.shot.ahead then 1 else 0)
    && (m.blank.Some? ==> m.blank.value <= Tallied(w))
    && (r.captured.Some? && m.blank.Some? ==> m.blank.value == m.popped + r.captured.value)
    && (r.captured.Some? && m.blank.None? ==> Ahead(m.shot, m.popped + r.captured.value))
    && (r.captured.None? ==> m.shot.count <= m.popped + (if m.shot.ahead then 1 else 0) && m.blank.None?)
    && (r.captured.None? && m.popped == 0 ==> m.shot.count == 0)
  }

  predicate ThreadsAre(s: Sys, m: Marks) {
    && (s.run.slab == Some(map[]) || m.blank == Some(m.recorded) ==> s.consumer.Restored?)
    && (KnownHere(s.sweep) ==> s.run.finalized || s.run.updates.Some?)
    && (s.consumer.FinMarked? || s.consumer.FinEvicted? || s.consumer.FinPopped? ==> s.run.finalized)
    && !(SweepLocks(s.sweep) && ConsumerLocks(s.consumer))
    && Numbered(s.consumer, m.recorded)
    && (s.consumer.Updated? && s.run.slab.Some? ==> m.since < m.recorded)
  }

  /** The sweep read the counters of the run in this round. */
  predicate KnownHere(sweep: Sweep) {
    (sweep.Known? || sweep.Listed?) && sweep.known
  }

  ghost predicate WatchInv(w: Watched) {
    RecordIs(w.sys.run, w.marks) && HeldIs(w) && ThreadsAre(w.sys, w.marks) && CountersAre(w)
  }

  lemma BeginInv(onDisk: seq<Positions>)
    requires Foreign(onDisk)
    ensures WatchInv(Begin(onDisk))
  {
  }

  lemma UpdateKeeps(w: Watched)
    requires WatchInv(w) && Occurs(w, Update)
    ensures WatchInv(After(w, Update))
  {
    var n, t := After(w, Update), w.sys.consumer.truck;
    assert t in n.sys.run.latest && n.sys.run.latest[t].no == n.marks.recorded && t in n.sys.run.slab.value;
    RecentGrows(w.sys.run.latest, w.marks.since, t, w.sys.consumer.at);
    if w.sys.run.slab.None? {
      NothingRecent(w.sys.run.latest, w.marks.recorded);
      RecentGrows(w.sys.run.latest, w.marks.recorded, t, w.sys.consumer.at);
    }
  }

  lemma RecentGrows(latest: Positions, since: nat, t: Truck, p: Position)
    requires p.no > since
    ensures Recent(latest[t := p], since) == Recent(latest, since)[t := p]
  {
  }

  lemma NothingRecent(latest: Positions, since: nat)
    requires UpTo(latest, since)
    ensures Recent(latest, since) == map[]
  {
  }

  lemma RestoreKeeps(w: Watched, seeds: bool)
    requires WatchInv(w) && Occurs(w, Restore(seeds))
    ensures WatchInv(After(w, Restore(seeds)))
  {
    NothingRecent(w.sys.run.latest, w.marks.recorded);
  }

  lemma CountKeeps(w: Watched)
    requires WatchInv(w) && Occurs(w, Count)
    ensures WatchInv(After(w, Count))
  {
  }

  predicate Snaps(e: Event) {
    e.FinSnapshot? || e.SweepSnapshot?
  }

  /** No slab, or one without trucks: at most the counters are told. */
  lemma EmptySnapshotKeeps(w: Watched, e: Event)
    requires WatchInv(w) && Occurs(w, e) && Snaps(e) && (w.sys.run.slab.None? || w.sys.run.slab.value == map[])
    ensures WatchInv(After(w, e))
  {
    if w.sys.run.slab.Some? && w.marks.since < w.marks.recorded {
      NoneSince(w.sys.run.latest, w.marks);
    }
  }

  lemma NoneSince(latest: Positions, m: Marks)
    requires Records(latest, m.recorded) && m.since < m.recorded
    ensures Recent(latest, m.since) != map[]
  {
    var t :| t in latest && latest[t].no == m.recorded;
    assert t in Recent(latest, m.since);
  }

  lemma SnapshotKeeps(w: Watched, e: Event)
    requires WatchInv(w) && Occurs(w, e) && Snaps(e) && w.sys.run.slab.Some? && w.sys.run.slab.value != map[]
    ensures WatchInv(After(w, e))
  {
    SnapshotIsShot(w);
    var n := After(w, e);
    assert RecordIs(n.sys.run, n.marks);
    assert CountersAre(n);
  }

  lemma AnySnapshotKeeps(w: Watched, e: Event)
    requires WatchInv(w) && Occurs(w, e) && Snaps(e)
    ensures WatchInv(After(w, e))
  {
    if w.sys.run.slab.None? || w.sys.run.slab.value == map[] {
      EmptySnapshotKeeps(w, e);
    } else {
      SnapshotKeeps(w, e);
    }
  }

  lemma SnapshotIsShot(w: Watched)
    requires WatchInv(w) && w.sys.run.slab.Some? && w.sys.run.slab.value != map[]
    ensures ShotIs(w.sys.run.slab.value, Shot(w.marks.recorded, w.marks.since, w.sys.consumer.Updated?),
                   w.sys.run.latest, w.marks.recorded)
  {
    var slab := w.sys.run.slab.value;
    var t :| t in slab;
    assert t in w.sys.run.latest && w.sys.run.latest[t].no > w.marks.since;
  }

  lemma FramesGrow(frames: seq<Positions>, frame: Positions, last: Shot, s: Shot, latest: Positions, recorded: nat)
    requires FramesAre(frames, last, latest, recorded) && ShotIs(frame, s, latest, recorded) && last.count <= s.count
    ensures FramesAre(frames + [frame], s, latest, recorded)
  {
    var more := frames + [frame];
    forall i | 0 <= i < |more|
      ensures UpTo(more[i], s.count)
    {
      assert i < |frames| ==> more[i] == frames[i] && UpTo(frames[i], last.count);
    }
  }

  lemma FinWriteKeeps(w: Watched, ok: bool)
    requires WatchInv(w) && Occurs(w, FinWrite(ok))
    ensures WatchInv(After(w, FinWrite(ok)))
  {
    FramesGrow(w.sys.run.frames, w.sys.consumer.frame, w.marks.shot, w.marks.held, w.sys.run.latest, w.marks.recorded);
  }

  lemma SweepWriteKeeps(w: Watched, ok: bool)
    requires WatchInv(w) && Occurs(w, SweepWrite(ok))
    ensures WatchInv(After(w, SweepWrite(ok)))
  {
    FramesGrow(w.sys.run.frames, w.sys.sweep.frame, w.marks.shot, w.marks.held, w.sys.run.latest, w.marks.recorded);
  }

  lemma GoneKeeps(w: Watched)
    requires WatchInv(w) && Occurs(w, SweepGone)
    ensures WatchInv(After(w, SweepGone))
  {
    if !BelievedGone(w.sys) {
      StayKeeps(w);
    } else {
      DropKeeps(w);
    }
  }

  lemma StayKeeps(w: Watched)
    requires WatchInv(w) && Occurs(w, SweepGone) && !BelievedGone(w.sys)
    ensures WatchInv(After(w, SweepGone))
  {
  }

  lemma DropKeeps(w: Watched)
    requires WatchInv(w) && Occurs(w, SweepGone) && BelievedGone(w.sys)
    ensures WatchInv(After(w, SweepGone))
  {
    var n := After(w, SweepGone);
    assert RecordIs(n.sys.run, n.marks);
  }

  lemma PopKeeps(w: Watched)
    requires WatchInv(w) && Occurs(w, FinPop)
    ensures WatchInv(After(w, FinPop))
  {
  }

  // The remaining steps leave the record and the counters as they were, or touch nothing of either.

  lemma ReceiveKeeps(w: Watched, truck: Truck, at: Position)
    requires WatchInv(w) && Occurs(w, Receive(truck, at))
    ensures WatchInv(After(w, Receive(truck, at)))
  {
  }

  lemma TerminalKeeps(w: Watched, reason: string)
    requires WatchInv(w) && Occurs(w, Terminal(reason))
    ensures WatchInv(After(w, Terminal(reason)))
  {
  }

  lemma RefuseKeeps(w: Watched)
    requires WatchInv(w) && Occurs(w, FinRefuse)
    ensures WatchInv(After(w, FinRefuse))
  {
  }

  lemma BeginKeeps(w: Watched)
    requires WatchInv(w) && Occurs(w, FinBegin)
    ensures WatchInv(After(w, FinBegin))
  {
  }

  lemma AuditKeeps(w: Watched)
    requires WatchInv(w) && Occurs(w, FinAudit)
    ensures WatchInv(After(w, FinAudit))
  {
  }

  lemma PersistKeeps(w: Watched, ok: bool)
    requires WatchInv(w) && Occurs(w, FinPersist(ok))
    ensures WatchInv(After(w, FinPersist(ok)))
  {
  }

  lemma MarkKeeps(w: Watched)
    requires WatchInv(w) && Occurs(w, FinMark)
    ensures WatchInv(After(w, FinMark))
  {
  }

  lemma ReturnKeeps(w: Watched)
    requires WatchInv(w) && Occurs(w, FinReturn)
    ensures WatchInv(After(w, FinReturn))
  {
  }

  lemma KnownKeeps(w: Watched)
    requires WatchInv(w) && Occurs(w, SweepKnown)
    ensures WatchInv(After(w, SweepKnown))
  {
  }

  lemma ListKeeps(w: Watched)
    requires WatchInv(w) && Occurs(w, SweepList)
    ensures WatchInv(After(w, SweepList))
  {
  }

  lemma SweepBeginKeeps(w: Watched)
    requires WatchInv(w) && Occurs(w, SweepBegin)
    ensures WatchInv(After(w, SweepBegin))
  {
  }

  lemma SweepPersistKeeps(w: Watched)
    requires WatchInv(w) && Occurs(w, SweepPersist)
    ensures WatchInv(After(w, SweepPersist))
  {
  }

  lemma LruKeeps(w: Watched)
    requires WatchInv(w) && Occurs(w, LruEvict)
    ensures WatchInv(After(w, LruEvict))
  {
  }

  lemma EvictKeeps(w: Watched)
    requires WatchInv(w) && Occurs(w, FinEvict)
    ensures WatchInv(After(w, FinEvict))
  {
  }

  lemma StepKeeps(w: Watched, e: Event)
    requires WatchInv(w) && Occurs(w, e)
    ensures WatchInv(After(w, e))
  {
    match e
    case Update => UpdateKeeps(w);
    case Restore(seeds) => RestoreKeeps(w, seeds);
    case Count => CountKeeps(w);
    case FinSnapshot => AnySnapshotKeeps(w, e);
    case SweepSnapshot => AnySnapshotKeeps(w, e);
    case FinWrite(ok) => FinWriteKeeps(w, ok);
    case SweepWrite(ok) => SweepWriteKeeps(w, ok);
    case SweepGone => GoneKeeps(w);
    case FinPop => PopKeeps(w);
    case LruEvict => LruKeeps(w);
    case FinEvict => EvictKeeps(w);
    case SweepKnown => KnownKeeps(w);
    case SweepList => ListKeeps(w);
    case SweepBegin => SweepBeginKeeps(w);
    case SweepPersist => SweepPersistKeeps(w);
    case Receive(truck, at) => ReceiveKeeps(w, truck, at);
    case Terminal(reason) => TerminalKeeps(w, reason);
    case FinRefuse => RefuseKeeps(w);
    case FinBegin => BeginKeeps(w);
    case FinAudit => AuditKeeps(w);
    case FinPersist(ok) => PersistKeeps(w, ok);
    case FinMark => MarkKeeps(w);
    case FinReturn => ReturnKeeps(w);
  }

  lemma {:induction false} WatchKeeps(trace: seq<Watched>, events: seq<Event>, i: nat)
    requires IsWatch(trace, events) && i < |trace|
    ensures WatchInv(trace[i])
  {
    if i == 0 {
      var onDisk :| Foreign(onDisk) && trace[0] == Begin(onDisk);
      BeginInv(onDisk);
    } else {
      WatchKeeps(trace, events, i - 1);
      StepKeeps(trace[i - 1], events[i - 1]);
    }
  }

  /** Until the LRU takes the run it has one slab, and its counters are dropped by a finalize alone. */
  predicate OneLife(w: Watched) {
    !w.sys.history.lru ==> w.marks.since == 0 && (w.sys.history.evicted || w.marks.popped == 0)
  }

  lemma OneLifeStep(w: Watched, e: Event)
    requires WatchInv(w) && Inv(w.sys) && OneLife(w) && Occurs(w, e)
    ensures OneLife(After(w, e))
  {
    if w.sys.run.latest == map[] {
      assert w.marks.recorded == 0;
    }
  }

  lemma {:induction false} WatchSound(trace: seq<Watched>, events: seq<Event>, i: nat)
    requires IsWatch(trace, events) && i < |trace|
    ensures WatchInv(trace[i]) && Inv(trace[i].sys) && OneLife(trace[i])
  {
    WatchKeeps(trace, events, i);
    if i == 0 {
      var onDisk :| Foreign(onDisk) && trace[0] == Begin(onDisk);
      InitialInv(onDisk);
    } else {
      WatchSound(trace, events, i - 1);
      FinalCapture.StepKeeps(trace[i - 1].sys, events[i - 1]);
      OneLifeStep(trace[i - 1], events[i - 1]);
    }
  }

  ghost predicate Reachable(w: Watched) {
    exists trace, events :: IsWatch(trace, events) && w == trace[|events|]
  }

  lemma ReachableSound(w: Watched)
    requires Reachable(w)
    ensures WatchInv(w)
  {
    var trace, events :| IsWatch(trace, events) && w == trace[|events|];
    WatchKeeps(trace, events, |events|);
  }

  // ---------------------------------------------------------------- what the last frame holds

  /** The newest position on record is on no frame of the run. */
  ghost predicate NewestUnframed(w: Watched) {
    forall i :: 0 <= i < |w.sys.run.frames| ==> !Holds(w.sys.run.frames[i], w.marks.recorded)
  }

  lemma NewestUnframedIff(w: Watched)
    requires WatchInv(w) && w.marks.recorded > 0
    ensures NewestUnframed(w) <==> w.marks.shot.count < w.marks.recorded
  {
    var frames, s := w.sys.run.frames, w.marks.shot;
    if s.count == w.marks.recorded {
      var t :| t in w.sys.run.latest && w.sys.run.latest[t].no == w.marks.recorded;
      assert t in Recent(w.sys.run.latest, s.since);
      assert Holds(frames[|frames| - 1], w.marks.recorded);
    } else {
      forall i | 0 <= i < |frames|
        ensures !Holds(frames[i], w.marks.recorded)
      {
        assert UpTo(frames[i], s.count);
      }
    }
  }

  /** Every truck has reported since the slab of the last frame was created: after a revival, again. */
  predicate AllAgain(w: Watched) {
    forall t :: t in w.sys.run.latest ==> w.sys.run.latest[t].no > w.marks.shot.since
  }

  /** The last frame holds every truck's last position exactly when it was snapped after the newest
      position and every truck had reported since its slab was created. */
  lemma CoversIff(w: Watched)
    requires Reachable(w) && w.marks.recorded > 0
    ensures Covers(w.sys.run.frames, w.sys.run.latest)
            <==> w.marks.shot.count == w.marks.recorded && AllAgain(w)
  {
    ReachableSound(w);
    CoversWhen(w);
  }

  lemma CoversWhen(w: Watched)
    requires WatchInv(w) && w.marks.recorded > 0
    ensures Covers(w.sys.run.frames, w.sys.run.latest)
            <==> w.marks.shot.count == w.marks.recorded && AllAgain(w)
  {
    var frames, s, latest := w.sys.run.frames, w.marks.shot, w.sys.run.latest;
    var t :| t in latest && latest[t].no == w.marks.recorded;
    if s.count == w.marks.recorded {
      if AllAgain(w) {
        assert Recent(latest, s.since) == latest;
      } else {
        var u :| u in latest && latest[u].no <= s.since;
        assert u !in Recent(latest, s.since);
      }
    } else if frames != [] {
      assert UpTo(frames[|frames| - 1], s.count);
    }
  }

  // ---------------------------------------------------------------- when the audit fires

  /** How many positions the last capture took account of. */
  function Seen(m: Marks): int {
    if m.blank.Some? then m.blank.value else m.shot.count - (if m.shot.ahead then 1 else 0)
  }

  /** The audit fires exactly when a position was counted after those the last capture took account of;
      when none was counted since the counters were dropped, exactly when a capture was made since. */
  lemma AuditFiresIff(w: Watched)
    requires Reachable(w)
    ensures w.sys.run.updates.Some? ==> (Uncaptured(w.sys.run) <==> Seen(w.marks) < Tallied(w))
    ensures w.sys.run.updates.None? ==> (Uncaptured(w.sys.run) <==> w.sys.run.captured.Some?)
  {
    ReachableSound(w);
  }

  /** With no position in hand the audit fires exactly when the newest position is on no frame, but for
      one corner: it also fires when the last frame was snapped between its newest position's update and
      its count. */
  lemma AuditMeans(w: Watched)
    requires Reachable(w) && w.sys.run.updates.Some? && !InPosition(w.sys.consumer)
    ensures Uncaptured(w.sys.run) <==> NewestUnframed(w) || w.marks.shot.ahead
  {
    ReachableSound(w);
    NewestUnframedIff(w);
  }

  /** While the run has had one slab only, the audit means coverage: it fires exactly when the last frame
      lacks some truck's last position, but for the same corner. */
  lemma AuditMeansCoverage(w: Watched)
    requires Reachable(w) && w.sys.run.updates.Some? && !InPosition(w.sys.consumer) && w.marks.since == 0
    ensures Uncaptured(w.sys.run) <==> !Covers(w.sys.run.frames, w.sys.run.latest) || w.marks.shot.ahead
  {
    ReachableSound(w);
    CoversWhen(w);
  }

  /** After a revival a silent audit leaves one question: whether every truck has reported again. */
  lemma SilentAuditMeans(w: Watched)
    requires Reachable(w) && w.sys.run.updates.Some? && !InPosition(w.sys.consumer) && !Uncaptured(w.sys.run)
    ensures Covers(w.sys.run.frames, w.sys.run.latest) <==> AllAgain(w)
  {
    ReachableSound(w);
    CoversWhen(w);
  }

  // ---------------------------------------------------------------- one eviction, no later position

  /** Nobody holds a snapshot and no position of the run is in hand. */
  predicate Quiet(s: Sys) {
    LockFree(s) && !InPosition(s.consumer)
  }

  /** The run left at `a` and nothing of it has been recorded since. */
  predicate LeftAt(a: Run, s: Sys) {
    && s.run.slab.None? && !s.consumer.Updated? && !s.consumer.FinHolding? && !s.sweep.Holding?
    && s.run.frames == a.frames && s.run.latest == a.latest
    && ((s.run.updates == a.updates && s.run.captured == a.captured)
        || (s.run.updates.None? && s.run.captured.None?))
  }

  lemma LeftStays(a: Run, s: Sys, e: Event)
    requires LeftAt(a, s) && Enabled(s, e) && !e.Restore? && !e.Update?
    ensures LeftAt(a, Apply(s, e))
  {
  }

  ghost predicate NoPosition(events: seq<Event>, from: nat, to: nat) {
    forall k :: from <= k < to && k < |events| ==> !events[k].Restore? && !events[k].Update?
  }

  lemma {:induction false} LeftForGood(trace: seq<Watched>, events: seq<Event>, e: nat, j: nat)
    requires IsWatch(trace, events) && e < j < |trace| && events[e].LruEvict? && Quiet(trace[e].sys)
    requires NoPosition(events, e, j)
    ensures LeftAt(trace[e].sys.run, trace[j].sys)
    decreases j
  {
    if j > e + 1 {
      LeftForGood(trace, events, e, j - 1);
      LeftStays(trace[e].sys.run, trace[j - 1].sys, events[j - 1]);
    }
  }

  /** The last frame was snapped between the newest position's update and its count. */
  predicate MidCount(w: Watched) {
    w.marks.shot.ahead && w.sys.run.captured == Some(Updates(w.sys.run) - 1)
  }

  /** The LRU takes the run and nothing of it is recorded afterwards.  From then on the last frame holds
      every truck's last position exactly when the run was idle at the eviction, or its last frame had
      been snapped with the newest position not yet counted. */
  lemma LruLosesIff(trace: seq<Watched>, events: seq<Event>, e: nat, j: nat)
    requires IsWatch(trace, events) && e < j < |trace| && events[e].LruEvict? && !trace[e].sys.history.lru
    requires Quiet(trace[e].sys) && NoPosition(events, e, j) && trace[e].sys.run.latest != map[]
    ensures Covers(trace[j].sys.run.frames, trace[j].sys.run.latest)
            <==> Idle(trace[e].sys.run) || MidCount(trace[e])
  {
    WatchSound(trace, events, e);
    LeftForGood(trace, events, e, j);
    var t :| t in trace[e].sys.run.latest;
    CoversWhen(trace[e]);
  }

  /** And every audit of the run adds to the losses exactly when the run was not idle at the eviction and
      the sweep has not dropped its counters. */
  lemma LruAuditIff(trace: seq<Watched>, events: seq<Event>, e: nat, j: nat)
    requires IsWatch(trace, events) && e < j < |events| && events[e].LruEvict? && !trace[e].sys.history.lru
    requires Quiet(trace[e].sys) && NoPosition(events, e, j) && trace[e].sys.run.latest != map[]
    requires events[j].FinAudit? || (events[j].SweepGone? && BelievedGone(trace[j].sys))
    ensures trace[j + 1].sys.run.dropped == trace[j].sys.run.dropped
              + (if Idle(trace[e].sys.run) || trace[j].sys.run.updates.None? then 0 else 1)
  {
    WatchSound(trace, events, e);
    LeftForGood(trace, events, e, j);
    var t :| t in trace[e].sys.run.latest;
  }
}
