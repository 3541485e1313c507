/** The step barrier of `OpenRideScheduler`: the reply handler, the barrier reset, the sweep and
    the timeout rule.  Each operation is a function on `Sched`, the value of the object's fields;
    the class at the end of the file updates the fields in place and is proved against them. */
module Scheduler {
  import opened Options

  type AgentId = nat
  type Topic = nat

  /** The step at which a nap ends; `Forever` is an indefinite, event-driven nap. */
  datatype Wake = At(step: int) | Forever

  datatype Action = Completed | Ready | Error | Shutdown

  /** One agent reply.  `sleepSteps` is 0 when the reply carries no nap. */
  datatype Reply = Reply(agent: AgentId, step: int, action: Action, didStep: bool,
                         sleepSteps: int, wakeTopic: Option<Topic>)

  datatype Entry = Entry(spec: nat, pendingBoot: bool)

  /** The straggler stash: a dictionary as its items in insertion order. */
  type Stash = seq<(AgentId, Entry)>

  datatype Roster = Roster(collection: map<AgentId, Entry>, stash: Stash)

  datatype Naps = Naps(until: map<AgentId, Wake>, topics: map<AgentId, Topic>)

  datatype Barrier = Barrier(
    expected: set<AgentId>,
    responded: set<AgentId>,
    outstanding: int,
    reactions: map<Action, nat>,
    didStepCount: nat,
    shutdownReplied: set<AgentId>,
    errorReplied: set<AgentId>,
    bootingCount: nat,
    sleepingCount: nat)

  datatype Sched = Sched(time: int, roster: Roster, naps: Naps, barrier: Barrier, timeouts: nat)

  datatype Config = Config(tolerance: real, abortAfter: int, allowDrain: bool, simLength: int)

  const PRUNED_STASH_MAX: nat := 4096

  // ---------------------------------------------------------------- the stash

  function Find(st: Stash, a: AgentId): Option<Entry> {
    if st == [] then None
    else if st[0].0 == a then Some(st[0].1)
    else Find(st[1..], a)
  }

  function StashPop(st: Stash, a: AgentId): Stash {
    if st == [] then []
    else if st[0].0 == a then st[1..]
    else [st[0]] + StashPop(st[1..], a)
  }

  function StashPut(st: Stash, a: AgentId, e: Entry): Stash {
    if st == [] then [(a, e)]
    else if st[0].0 == a then [(a, e)] + st[1..]
    else [st[0]] + StashPut(st[1..], a, e)
  }

  /** Oldest first, until the bound holds. */
  function StashTrim(st: Stash): Stash {
    if |st| <= PRUNED_STASH_MAX then st else StashTrim(st[1..])
  }

  // ---------------------------------------------------------------- the reply handler

  predicate Restores(r: Reply) {
    r.action == Completed || r.action == Ready
  }

  function Reinstate(ro: Roster, r: Reply): Roster {
    if r.agent !in ro.collection && Restores(r) && Find(ro.stash, r.agent).Some? then
      Roster(ro.collection[r.agent := Find(ro.stash, r.agent).value], StashPop(ro.stash, r.agent))
    else ro
  }

  function MarkBooted(ro: Roster, a: AgentId): Roster {
    if a in ro.collection then
      ro.(collection := ro.collection[a := ro.collection[a].(pendingBoot := false)])
    else ro
  }

  /** The nap a reply announces. */
  function WakeOf(r: Reply): Option<Wake> {
    if r.sleepSteps == 0 then None
    else if r.sleepSteps < 0 then Some(Forever)
    else Some(At(r.step + r.sleepSteps))
  }

  function NoteNap(naps: Naps, r: Reply): Naps {
    if r.sleepSteps < 0 then
      Naps(naps.until[r.agent := Forever],
           if r.wakeTopic.Some? then naps.topics[r.agent := r.wakeTopic.value] else naps.topics)
    else if r.sleepSteps > 0 then
      naps.(until := naps.until[r.agent := At(r.step + r.sleepSteps)])
    else if r.agent in naps.until then
      Naps(naps.until - {r.agent}, naps.topics - {r.agent})
    else naps
  }

  function Count(m: map<Action, nat>, x: Action): nat {
    if x in m then m[x] else 0
  }

  function NoteFinal(b: Barrier, r: Reply): Barrier {
    if r.action == Shutdown then b.(shutdownReplied := b.shutdownReplied + {r.agent})
    else if r.action == Error then b.(errorReplied := b.errorReplied + {r.agent})
    else b
  }

  function CountReply(b: Barrier, r: Reply): Barrier {
    if r.agent in b.expected && r.agent !in b.responded then
      b.(responded := b.responded + {r.agent},
         didStepCount := if r.didStep then b.didStepCount + 1 else b.didStepCount,
         reactions := b.reactions[r.action := Count(b.reactions, r.action) + 1],
         outstanding := b.outstanding - 1)
    else b
  }

  function Tally(b: Barrier, time: int, r: Reply): Barrier {
    if r.step == time then CountReply(NoteFinal(b, r), r) else b
  }

  function AfterReply(s: Sched, r: Reply): Sched {
    s.(roster := MarkBooted(Reinstate(s.roster, r), r.agent),
       naps := NoteNap(s.naps, r),
       barrier := Tally(s.barrier, s.time, r))
  }

  function AfterReplies(s: Sched, rs: seq<Reply>): Sched {
    if rs == [] then s else AfterReply(AfterReplies(s, rs[..|rs| - 1]), rs[|rs| - 1])
  }

  // ---------------------------------------------------------------- the barrier reset

  predicate Expired(w: Wake, time: int) {
    w.At? && w.step <= time
  }

  function ExpiredNaps(until: map<AgentId, Wake>, time: int): set<AgentId> {
    set a | a in until && Expired(until[a], time)
  }

  function ExpireNaps(naps: Naps, time: int): Naps {
    var gone := ExpiredNaps(naps.until, time);
    Naps(naps.until - gone, naps.topics - gone)
  }

  /** Who must answer: registered, booted, and not in `asleep`, the sleepers read just before. */
  function ExpectedSet(collection: map<AgentId, Entry>, asleep: set<AgentId>): set<AgentId> {
    set a | a in collection && !collection[a].pendingBoot && a !in asleep
  }

  function BootingSet(collection: map<AgentId, Entry>): set<AgentId> {
    set a | a in collection && collection[a].pendingBoot
  }

  /** The baseline computed before the fields are reset. */
  datatype Baseline = Baseline(expected: set<AgentId>, booting: nat, sleeping: nat)

  function BaselineOf(ro: Roster, asleep: set<AgentId>): Baseline {
    Baseline(ExpectedSet(ro.collection, asleep), |BootingSet(ro.collection)|, |asleep|)
  }

  const RESETS: nat := 9

  /** The `k`-th of the nine assignments that reset the barrier. */
  function ResetField(b: Barrier, k: nat, base: Baseline): Barrier {
    match k
    case 0 => b.(bootingCount := base.booting)
    case 1 => b.(sleepingCount := base.sleeping)
    case 2 => b.(responded := {})
    case 3 => b.(reactions := map[])
    case 4 => b.(didStepCount := 0)
    case 5 => b.(shutdownReplied := {})
    case 6 => b.(errorReplied := {})
    case 7 => b.(expected := base.expected)
    case _ => b.(outstanding := |base.expected|)
  }

  /** The first `k` assignments. */
  function ResetTo(b: Barrier, k: nat, base: Baseline): Barrier {
    if k == 0 then b else ResetField(ResetTo(b, k - 1, base), k - 1, base)
  }

  /** All nine (see `ResetAll`). */
  function Reset(base: Baseline): Barrier {
    Barrier(base.expected, {}, |base.expected|, map[], 0, {}, {}, base.booting, base.sleeping)
  }

  function BeginBarrier(s: Sched): Sched {
    var naps := ExpireNaps(s.naps, s.time);
    s.(naps := naps, barrier := Reset(BaselineOf(s.roster, naps.until.Keys)))
  }

  // ---------------------------------------------------------------- the end of a step

  function NonResponders(b: Barrier): set<AgentId> {
    b.expected - b.responded
  }

  function Victims(b: Barrier): set<AgentId> {
    b.shutdownReplied + NonResponders(b)
  }

  predicate Silent(b: Barrier, a: AgentId) {
    a in NonResponders(b) && a !in b.shutdownReplied
  }

  function AfterRemoval(s: Sched, a: AgentId): Sched {
    s.(roster := s.roster.(collection := s.roster.collection - {a}),
       naps := Naps(s.naps.until - {a}, s.naps.topics - {a}))
  }

  function ReapRoster(ro: Roster, b: Barrier, a: AgentId): Roster {
    if a !in ro.collection then ro
    else Roster(ro.collection - {a},
                if Silent(b, a) then StashTrim(StashPut(ro.stash, a, ro.collection[a])) else ro.stash)
  }

  function ReapNaps(naps: Naps, ro: Roster, a: AgentId): Naps {
    if a !in ro.collection then naps else Naps(naps.until - {a}, naps.topics - {a})
  }

  function ReapOne(s: Sched, a: AgentId): Sched {
    s.(roster := ReapRoster(s.roster, s.barrier, a), naps := ReapNaps(s.naps, s.roster, a))
  }

  /** The sweep, visiting `order` left to right. */
  function Reap(s: Sched, order: seq<AgentId>): Sched {
    if order == [] then s else ReapOne(Reap(s, order[..|order| - 1]), order[|order| - 1])
  }

  predicate Enumerates(order: seq<AgentId>, xs: set<AgentId>) {
    && (forall i :: 0 <= i < |order| ==> order[i] in xs)
    && (forall a :: a in xs ==> a in order)
    && (forall i, j :: 0 <= i < j < |order| ==> order[i] != order[j])
  }

  /** On the final step the registered sleepers that are left are deregistered too. */
  function WithoutSleepers(s: Sched): Sched {
    var gone := s.naps.until.Keys * s.roster.collection.Keys;
    s.(roster := s.roster.(collection := s.roster.collection - gone),
       naps := Naps(s.naps.until - gone, s.naps.topics - gone))
  }

  function Finish(s: Sched, isFinal: bool): Sched {
    var t := if isFinal then WithoutSleepers(s) else s;
    t.(time := t.time + 1)
  }

  // ---------------------------------------------------------------- waiting and timeouts

  /** When `confirm_responses` stops waiting.  `settled` is the elapsed-time test. */
  predicate Done(outstanding: int, total: nat, tolerance: real, settled: bool) {
    outstanding <= 0
    || (total > 0 && outstanding as real / total as real <= tolerance && settled)
  }

  predicate OverTolerance(s: Sched, cfg: Config) {
    var total := |s.roster.collection|;
    total > 0
    && (if s.barrier.outstanding > 0 then s.barrier.outstanding else 0) as real / total as real > cfg.tolerance
  }

  function AbortAfter(cfg: Config): int {
    if cfg.abortAfter < 1 then 1 else cfg.abortAfter
  }

  function TimeoutStreak(s: Sched, cfg: Config): nat {
    if OverTolerance(s, cfg) then s.timeouts + 1 else 0
  }

  predicate TimeoutAborts(s: Sched, cfg: Config) {
    OverTolerance(s, cfg) && TimeoutStreak(s, cfg) >= AbortAfter(cfg)
  }

  function AfterWait(s: Sched, timedOut: bool, cfg: Config): Sched {
    s.(timeouts := if timedOut then TimeoutStreak(s, cfg) else 0)
  }

  predicate EffectiveFinal(s: Sched, isFinal: bool, cfg: Config) {
    isFinal || (!cfg.allowDrain && s.time == cfg.simLength - 1)
  }

  /** Everything of one step up to the sweep: reset, publish, the replies that arrive, the wait. */
  function StepWait(s: Sched, rs: seq<Reply>, timedOut: bool, cfg: Config): Sched {
    AfterWait(AfterReplies(BeginBarrier(s), rs), timedOut, cfg)
  }

  predicate StepAborts(s: Sched, rs: seq<Reply>, timedOut: bool, cfg: Config) {
    timedOut && TimeoutAborts(AfterReplies(BeginBarrier(s), rs), cfg)
  }

  // ---------------------------------------------------------------- the class

  function Fresh(time: int): Sched {
    Sched(time, Roster(map[], []), Naps(map[], map[]),
          Barrier({}, {}, 0, map[], 0, {}, {}, 0, 0), 0)
  }

  class OpenRideScheduler {
    var time: int
    var collection: map<AgentId, Entry>
    var stash: Stash
    var sleepingUntil: map<AgentId, Wake>
    var wakeTopics: map<AgentId, Topic>
    var expected: set<AgentId>
    var responded: set<AgentId>
    var outstanding: int
    var reactions: map<Action, nat>
    var didStepCount: nat
    var shutdownReplied: set<AgentId>
    var errorReplied: set<AgentId>
    var bootingCount: nat
    var sleepingCount: nat
    var timeouts: nat

    ghost function BarrierView(): Barrier
      reads this
    {
      Barrier(expected, responded, outstanding, reactions, didStepCount, shutdownReplied, errorReplied,
              bootingCount, sleepingCount)
    }

    ghost function View(): Sched
      reads this
    {
      Sched(time, Roster(collection, stash), Naps(sleepingUntil, wakeTopics), BarrierView(), timeouts)
    }

    constructor ()
      ensures View() == Fresh(0)
    {
      time, collection, sleepingUntil, wakeTopics := 0, map[], map[], map[];
      stash := [];
      expected, responded, outstanding, reactions, didStepCount := {}, {}, 0, map[], 0;
      shutdownReplied, errorReplied := {}, {};
      bootingCount, sleepingCount, timeouts := 0, 0, 0;
    }

    method AddAgent(a: AgentId, spec: nat)
      modifies `collection
      ensures collection == old(collection)[a := Entry(spec, true)]
    {
      collection := collection[a := Entry(spec, true)];
    }

    method RemoveAgent(a: AgentId)
      modifies `collection, `sleepingUntil, `wakeTopics
      ensures View() == AfterRemoval(old(View()), a)
    {
      collection := collection - {a};
      if a in sleepingUntil || a in wakeTopics {
        sleepingUntil := sleepingUntil - {a};
        wakeTopics := wakeTopics - {a};
      } else {
        assert sleepingUntil - {a} == sleepingUntil && wakeTopics - {a} == wakeTopics;
      }
    }

    /** The first part of `_handle_reply`: a late reply re-registers a pruned agent, and any reply
        ends the boot phase. */
    method NoteAlive(r: Reply)
      modifies `collection, `stash
      ensures Roster(collection, stash)
           == MarkBooted(Reinstate(Roster(old(collection), old(stash)), r), r.agent)
    {
      if r.agent !in collection && Restores(r) && Find(stash, r.agent).Some? {
        collection := collection[r.agent := Find(stash, r.agent).value];
        stash := StashPop(stash, r.agent);
      }
      if r.agent in collection {
        collection := collection[r.agent := collection[r.agent].(pendingBoot := false)];
      }
    }

    /** The second part: the sleep ledger. */
    method NoteSleep(r: Reply)
      modifies `sleepingUntil, `wakeTopics
      ensures Naps(sleepingUntil, wakeTopics) == NoteNap(Naps(old(sleepingUntil), old(wakeTopics)), r)
    {
      if r.sleepSteps != 0 {
        if r.sleepSteps < 0 {
          sleepingUntil := sleepingUntil[r.agent := Forever];
          if r.wakeTopic.Some? {
            wakeTopics := wakeTopics[r.agent := r.wakeTopic.value];
          }
        } else {
          sleepingUntil := sleepingUntil[r.agent := At(r.step + r.sleepSteps)];
        }
      } else if r.agent in sleepingUntil {
        sleepingUntil := sleepingUntil - {r.agent};
        wakeTopics := wakeTopics - {r.agent};
      }
    }

    /** The third part: the counters of the barrier.  `signal` is the single wake-up call. */
    method TallyReply(r: Reply) returns (signal: bool)
      modifies `shutdownReplied, `errorReplied, `responded, `didStepCount, `reactions, `outstanding
      ensures BarrierView() == Tally(old(BarrierView()), time, r)
      ensures signal <==> outstanding < old(outstanding) && outstanding <= 0
    {
      signal := false;
      if r.step == time {
        if r.action == Shutdown {
          shutdownReplied := shutdownReplied + {r.agent};
        }
        if r.action == Error {
          errorReplied := errorReplied + {r.agent};
        }
        if r.agent in expected && r.agent !in responded {
          responded := responded + {r.agent};
          if r.didStep {
            didStepCount := didStepCount + 1;
          }
          reactions := reactions[r.action := Count(reactions, r.action) + 1];
          outstanding := outstanding - 1;
          if outstanding <= 0 {
            signal := true;
          }
        }
      }
    }

    method HandleReply(r: Reply) returns (signal: bool)
      modifies this
      ensures View() == AfterReply(old(View()), r)
      ensures signal <==> outstanding < old(outstanding) && outstanding <= 0
    {
      NoteAlive(r);
      NoteSleep(r);
      signal := TallyReply(r);
    }

    /** The scan of the collection: who is expected this step, and who is still booting. */
    method ScanCollection(asleep: set<AgentId>) returns (exp: set<AgentId>, boot: set<AgentId>)
      ensures exp == ExpectedSet(collection, asleep) && boot == BootingSet(collection)
    {
      var todo := collection.Keys;
      exp, boot := {}, {};
      while todo != {}
        invariant todo <= collection.Keys
        invariant exp == (set a | a in collection.Keys - todo && !collection[a].pendingBoot && a !in asleep)
        invariant boot == (set a | a in collection.Keys - todo && collection[a].pendingBoot)
        decreases todo
      {
        var a :| a in todo;
        todo := todo - {a};
        if collection[a].pendingBoot {
          boot := boot + {a};
        } else if a !in asleep {
          exp := exp + {a};
        }
      }
    }

    method ExpireSleepers()
      modifies `sleepingUntil, `wakeTopics
      ensures Naps(sleepingUntil, wakeTopics) == ExpireNaps(Naps(old(sleepingUntil), old(wakeTopics)), time)
    {
      var gone := ExpiredNaps(sleepingUntil, time);
      sleepingUntil := sleepingUntil - gone;
      wakeTopics := wakeTopics - gone;
    }

    method ResetBarrier(base: Baseline)
      modifies `bootingCount, `sleepingCount, `responded, `reactions, `didStepCount
      modifies `shutdownReplied, `errorReplied, `expected, `outstanding
      ensures BarrierView() == Reset(base)
    {
      bootingCount := base.booting;
      sleepingCount := base.sleeping;
      responded := {};
      reactions := map[];
      didStepCount := 0;
      shutdownReplied := {};
      errorReplied := {};
      expected := base.expected;
      outstanding := |base.expected|;
    }

    method BeginStepBarrier()
      modifies this
      ensures View() == BeginBarrier(old(View()))
    {
      ExpireSleepers();
      var asleep := sleepingUntil.Keys;
      var exp, boot := ScanCollection(asleep);
      ResetBarrier(Baseline(exp, |boot|, |asleep|));
    }

    /** Stash a pruned entry, dropping the oldest ones over the bound. */
    method StashEntry(a: AgentId, e: Entry)
      modifies `stash
      ensures stash == StashTrim(StashPut(old(stash), a, e))
    {
      stash := StashPut(stash, a, e);
      while |stash| > PRUNED_STASH_MAX
        invariant StashTrim(stash) == StashTrim(StashPut(old(stash), a, e))
        decreases |stash|
      {
        stash := stash[1..];
      }
    }

    /** One iteration of the sweep: stash the agent if it was silent, then remove it. */
    method ReapAgent(a: AgentId)
      modifies `collection, `stash, `sleepingUntil, `wakeTopics
      ensures View() == ReapOne(old(View()), a)
    {
      if a in collection {
        if a in expected - responded && a !in shutdownReplied {
          StashEntry(a, collection[a]);
        }
        RemoveAgent(a);
      }
    }

    /** The sweep visits the victims in whatever order the set yields them. */
    method Sweep() returns (ghost order: seq<AgentId>)
      modifies `collection, `stash, `sleepingUntil, `wakeTopics
      ensures Enumerates(order, Victims(old(BarrierView())))
      ensures View() == Reap(old(View()), order)
    {
      order := [];
      var all := shutdownReplied + (expected - responded);
      var todo := all;
      while todo != {}
        invariant todo <= all
        invariant Enumerates(order, all - todo)
        invariant View() == Reap(old(View()), order)
        decreases todo
      {
        var a :| a in todo;
        todo := todo - {a};
        ReapAgent(a);
        ghost var visited := order + [a];
        assert visited[..|visited| - 1] == order;
        order := visited;
      }
    }

    method StepTimeoutHandler(cfg: Config) returns (raised: bool)
      modifies `timeouts
      ensures View() == AfterWait(old(View()), true, cfg)
      ensures raised <==> TimeoutAborts(old(View()), cfg)
    {
      raised := false;
      var total := |collection|;
      if total == 0 {
        timeouts := 0;
        return;
      }
      var waiting := if outstanding > 0 then outstanding else 0;
      if waiting as real / total as real <= cfg.tolerance {
        timeouts := 0;
        return;
      }
      timeouts := timeouts + 1;
      raised := timeouts >= AbortAfter(cfg);
    }

    /** From the barrier reset to the end of the wait, given the replies that arrive meanwhile. */
    method Wait(replies: seq<Reply>, timedOut: bool, cfg: Config) returns (raised: bool)
      modifies this
      ensures raised <==> StepAborts(old(View()), replies, timedOut, cfg)
      ensures View() == StepWait(old(View()), replies, timedOut, cfg)
    {
      raised := false;
      BeginStepBarrier();
      ghost var begun := View();
      var i := 0;
      while i < |replies|
        invariant 0 <= i <= |replies|
        invariant View() == AfterReplies(begun, replies[..i])
      {
        var _ := HandleReply(replies[i]);
        assert replies[..i + 1][..i] == replies[..i];
        i := i + 1;
      }
      assert replies[..|replies|] == replies;
      if timedOut {
        raised := StepTimeoutHandler(cfg);
      } else {
        timeouts := 0;
      }
    }

    /** One whole step.  A raised timeout leaves the step unfinished. */
    method Step(isFinal: bool, replies: seq<Reply>, timedOut: bool, cfg: Config)
      returns (endSim: bool, raised: bool, ghost order: seq<AgentId>)
      modifies this
      ensures raised <==> StepAborts(old(View()), replies, timedOut, cfg)
      ensures endSim == EffectiveFinal(old(View()), isFinal, cfg)
      ensures raised ==> View() == StepWait(old(View()), replies, timedOut, cfg)
      ensures !raised ==> Enumerates(order, Victims(StepWait(old(View()), replies, timedOut, cfg).barrier))
      ensures !raised ==> View() == Finish(Reap(StepWait(old(View()), replies, timedOut, cfg), order), endSim)
    {
      endSim := isFinal || (!cfg.allowDrain && time == cfg.simLength - 1);
      order := [];
      raised := Wait(replies, timedOut, cfg);
      if raised {
        return;
      }
      ghost var waited := View();
      order := Sweep();
      ghost var reaped := View();
      assert reaped == Reap(waited, order);
      if endSim {
        DropSleepers();
      }
      ghost var kept := View();
      assert kept == if endSim then WithoutSleepers(reaped) else reaped;
      time := time + 1;
    }

    method DropSleepers()
      modifies `collection, `sleepingUntil, `wakeTopics
      ensures View() == WithoutSleepers(old(View()))
    {
      var left := sleepingUntil.Keys * collection.Keys;
      collection := collection - left;
      sleepingUntil := sleepingUntil - left;
      wakeTopics := wakeTopics - left;
    }
  }

  /** The nine assignments, made one after the other, amount to `Reset`. */
  lemma ResetAll(b: Barrier, base: Baseline)
    ensures ResetTo(b, RESETS, base) == Reset(base)
  {
    var b3 := b.(bootingCount := base.booting, sleepingCount := base.sleeping, responded := {});
    assert ResetTo(b, 3, base) == b3 by {
      assert ResetTo(b, 1, base) == ResetField(ResetTo(b, 0, base), 0, base);
      assert ResetTo(b, 2, base) == ResetField(ResetTo(b, 1, base), 1, base);
    }
    var b6 := b3.(reactions := map[], didStepCount := 0, shutdownReplied := {});
    assert ResetTo(b, 6, base) == b6 by {
      assert ResetTo(b, 4, base) == ResetField(b3, 3, base);
      assert ResetTo(b, 5, base) == ResetField(ResetTo(b, 4, base), 4, base);
    }
    assert ResetTo(b, 7, base) == ResetField(b6, 6, base);
    assert ResetTo(b, 8, base) == ResetField(ResetTo(b, 7, base), 7, base);
  }
}
