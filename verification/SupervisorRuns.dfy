/** Runner threads, the watchdog and outside callers interleaved: what a superseded thread can still
    do, and how restarts are counted and paced. */
module SupervisorRuns {
  import opened Options
  import opened Supervisor

  // ---------------------------------------------------------------- the threads

  /** Where a runner thread is.  `start` is the local `round_started`. */
  datatype Pc =
    | Head
    | Check
    | Clock
    | Open(start: real)
    | MarkRound(start: real)
    | Call(start: real)
    | InFn(start: real)
    | Crashed(start: real)
    | Came(start: real)
    | NoteReturn(start: real)
    | StopTest(start: real)
    | Settle(start: real)
    | CountIt(settled: bool)
    | MarkBackoff(settled: bool)
    | NoteBackoff(settled: bool)
    | Sleep(since: real)
    | Exit
    | Dead

  /** One backoff sleep, and whether it followed a settled round. */
  datatype Nap = Nap(settled: bool, delay: real)

  /** `log` is the history of the thread's own sleeps. */
  datatype Runner = Runner(gen: nat, pc: Pc, backoff: real, log: seq<Nap>)

  datatype Sys = Sys(now: real, task: Task, runners: map<Tid, Runner>)

  datatype Event =
    | Tick(now: real)
    | SetStop
    | ClearStop
    | StartCall(newcomer: Tid)
    | Watchdog(newcomer: Tid)
    | JoinTimeout(tid: Tid)
    | Collect(tid: Tid)
    | Beat(caller: Tid)
    | Leave(tid: Tid, crashed: bool)
    | Section(tid: Tid)
    | Wake(tid: Tid, stopped: bool)

  predicate Alive(s: Sys, tid: Tid) {
    tid in s.runners && s.runners[tid].pc != Dead
  }

  predicate ThreadAlive(s: Sys) {
    s.task.threads.thread.Some? && Alive(s, s.task.threads.thread.value)
  }

  /** The next step of a runner outside the supervised function and the sleep, on the shared fields. */
  function TaskAfter(t: Task, now: real, tid: Tid, r: Runner): Task {
    match r.pc
    case Open(start) => RoundOpened(t, r.gen, start)
    case MarkRound(_) => Marked(t, tid, now)
    case Crashed(_) => Noted(t, r.gen, CrashFault)
    case NoteReturn(_) => Noted(t, r.gen, ReturnFault)
    case CountIt(settled) => RoundCounted(t, r.gen, settled)
    case MarkBackoff(_) => Marked(t, tid, now)
    case NoteBackoff(_) => t.(history := t.history + [r.backoff])
    case Exit => Finished(t, r.gen)
    case _ => t
  }

  function PcAfter(t: Task, cfg: Settings, now: real, r: Runner): Pc {
    match r.pc
    case Head => if t.stop then Exit else Check
    case Check => if r.gen != t.threads.generation then Dead else Clock
    case Clock => Open(now)
    case Open(start) => MarkRound(start)
    case MarkRound(start) => Call(start)
    case Call(start) => InFn(start)
    case Crashed(start) => StopTest(start)
    case Came(start) => if t.stop then Exit else NoteReturn(start)
    case NoteReturn(start) => StopTest(start)
    case StopTest(start) => if t.stop then Exit else Settle(start)
    case Settle(start) => CountIt(now - start >= cfg.resetAfter)
    case CountIt(settled) => if r.gen != t.threads.generation then Dead else MarkBackoff(settled)
    case MarkBackoff(settled) => NoteBackoff(settled)
    case NoteBackoff(_) => Sleep(now)
    case Exit => Dead
    case other => other
  }

  function RunnerAfter(t: Task, cfg: Settings, now: real, r: Runner): Runner {
    var next := r.(pc := PcAfter(t, cfg, now, r));
    if r.pc.CountIt? && next.pc.MarkBackoff? && r.pc.settled then next.(backoff := cfg.backoffInitial)
    else if r.pc.NoteBackoff? then next.(log := r.log + [Nap(r.pc.settled, r.backoff)])
    else next
  }

  function Woken(cfg: Settings, r: Runner, stopped: bool): Runner {
    if stopped then r.(pc := Exit) else r.(pc := Head, backoff := Min(r.backoff * 2.0, cfg.backoffMax))
  }

  function NewRunner(cfg: Settings, gen: nat): Runner {
    Runner(gen, Head, cfg.backoffInitial, [])
  }

  function WithSpawn(s: Sys, cfg: Settings, t: Task, newcomer: Tid): Sys {
    if t.threads.generation == s.task.threads.generation then s.(task := t)
    else s.(task := t, runners := s.runners[newcomer := NewRunner(cfg, t.threads.generation)])
  }

  predicate Enabled(s: Sys, e: Event) {
    match e
    case Tick(now) => now >= s.now
    case StartCall(newcomer) => newcomer !in s.runners
    case Watchdog(newcomer) => newcomer !in s.runners
    case JoinTimeout(tid) => Alive(s, tid)
    case Collect(tid) => tid in s.runners && !Alive(s, tid)
    case Beat(caller) => caller in s.runners ==> s.runners[caller].pc.InFn?
    case Leave(tid, _) => tid in s.runners && s.runners[tid].pc.InFn?
    case Section(tid) => Alive(s, tid) && !s.runners[tid].pc.InFn? && !s.runners[tid].pc.Sleep?
    case Wake(tid, stopped) =>
      tid in s.runners && s.runners[tid].pc.Sleep?
      && (stopped || s.now - s.runners[tid].pc.since >= s.runners[tid].backoff)
    case _ => true
  }

  function Apply(s: Sys, cfg: Settings, e: Event): Sys
    requires Enabled(s, e)
  {
    match e
    case Tick(now) => s.(now := now)
    case SetStop => s.(task := s.task.(stop := true))
    case ClearStop => s.(task := s.task.(stop := false))
    case StartCall(newcomer) => WithSpawn(s, cfg, Started(s.task, newcomer, s.now, ThreadAlive(s)), newcomer)
    case Watchdog(newcomer) => WithSpawn(s, cfg, Restarted(s.task, cfg, newcomer, s.now, ThreadAlive(s)), newcomer)
    case JoinTimeout(_) => s.(task := JoinExpired(s.task))
    case Collect(tid) =>
      s.(task := s.task.(threads := s.task.threads.(owner := s.task.threads.owner - {tid})))
    case Beat(caller) => s.(task := Beaten(s.task, caller, s.now))
    case Leave(tid, crashed) =>
      var r := s.runners[tid];
      s.(runners := s.runners[tid := r.(pc := if crashed then Crashed(r.pc.start) else Came(r.pc.start))])
    case Section(tid) =>
      var r := s.runners[tid];
      Sys(s.now, TaskAfter(s.task, s.now, tid, r), s.runners[tid := RunnerAfter(s.task, cfg, s.now, r)])
    case Wake(tid, stopped) =>
      s.(runners := s.runners[tid := Woken(cfg, s.runners[tid], stopped)])
  }

  function Initial(now: real): Sys {
    Sys(now, NewTask(), map[])
  }

  /** `trace[i + 1]` is `trace[i]` after `events[i]`. */
  ghost predicate Follows(cfg: Settings, trace: seq<Sys>, events: seq<Event>) {
    && |trace| == |events| + 1
    && forall i :: 0 <= i < |events| ==>
         Enabled(trace[i], events[i]) && trace[i + 1] == Apply(trace[i], cfg, events[i])
  }

  // ---------------------------------------------------------------- the invariant

  predicate OneRunner(th: Threads, tid: Tid, r: Runner) {
    && 1 <= r.gen <= th.generation
    && (r.pc != Dead ==> tid in th.owner && th.owner[tid] == r.gen)
    && (th.active == Some(tid) <==> r.gen == th.generation)
  }

  ghost predicate Distinct(runners: map<Tid, Runner>) {
    forall a, b :: a in runners && b in runners && a != b ==> runners[a].gen != runners[b].gen
  }

  ghost predicate Inv(s: Sys) {
    && (forall tid :: tid in s.runners ==> OneRunner(s.task.threads, tid, s.runners[tid]))
    && s.task.threads.thread == s.task.threads.active
    && (s.task.threads.active.Some? ==> s.task.threads.active.value in s.runners)
    && Distinct(s.runners)
  }

  lemma SpawnKeeps(s: Sys, cfg: Settings, t: Task, newcomer: Tid)
    requires Inv(s) && newcomer !in s.runners && t.threads == Spawned(s.task.threads, newcomer)
    ensures Inv(WithSpawn(s, cfg, t, newcomer))
  {
    var n := WithSpawn(s, cfg, t, newcomer);
    forall tid | tid in n.runners
      ensures OneRunner(n.task.threads, tid, n.runners[tid])
    {
      assert tid != newcomer ==> tid in s.runners && OneRunner(s.task.threads, tid, s.runners[tid]);
    }
    forall a, b | a in n.runners && b in n.runners && a != b
      ensures n.runners[a].gen != n.runners[b].gen
    {
      assert a != newcomer ==> OneRunner(s.task.threads, a, s.runners[a]);
      assert b != newcomer ==> OneRunner(s.task.threads, b, s.runners[b]);
    }
  }

  lemma UpdateKeeps(s: Sys, now: real, t: Task, tid: Tid, r: Runner)
    requires Inv(s) && t.threads == s.task.threads && tid in s.runners && r.gen == s.runners[tid].gen
    requires s.runners[tid].pc != Dead
    ensures Inv(Sys(now, t, s.runners[tid := r]))
  {
    assert OneRunner(s.task.threads, tid, s.runners[tid]);
  }

  lemma SectionThreads(t: Task, cfg: Settings, now: real, tid: Tid, r: Runner)
    ensures TaskAfter(t, now, tid, r).threads == t.threads
    ensures RunnerAfter(t, cfg, now, r).gen == r.gen
  {
  }

  ghost predicate Grows(s: Sys, n: Sys) {
    && s.runners.Keys <= n.runners.Keys
    && n.task.threads.generation >= s.task.threads.generation
    && (forall tid :: tid in s.runners ==> n.runners[tid].gen == s.runners[tid].gen)
  }

  lemma StepKeeps(s: Sys, cfg: Settings, e: Event)
    requires Inv(s) && Enabled(s, e)
    ensures Inv(Apply(s, cfg, e)) && Grows(s, Apply(s, cfg, e))
  {
    var n := Apply(s, cfg, e);
    match e
    case StartCall(newcomer) =>
      if n.task.threads != s.task.threads {
        SpawnKeeps(s, cfg, n.task, newcomer);
      }
    case Watchdog(newcomer) =>
      if n.task.threads != s.task.threads {
        SpawnKeeps(s, cfg, n.task, newcomer);
      }
    case Section(tid) =>
      SectionThreads(s.task, cfg, s.now, tid, s.runners[tid]);
      UpdateKeeps(s, s.now, n.task, tid, n.runners[tid]);
    case Leave(tid, _) =>
      UpdateKeeps(s, s.now, s.task, tid, n.runners[tid]);
    case Wake(tid, _) =>
      UpdateKeeps(s, s.now, s.task, tid, n.runners[tid]);
    case Collect(tid) =>
      CollectKeeps(s, tid);
    case _ =>
      assert n.runners == s.runners && n.task.threads == s.task.threads;
  }

  lemma CollectKeeps(s: Sys, tid: Tid)
    requires Inv(s) && tid in s.runners && !Alive(s, tid)
    ensures Inv(s.(task := s.task.(threads := s.task.threads.(owner := s.task.threads.owner - {tid}))))
  {
    var th := s.task.threads.(owner := s.task.threads.owner - {tid});
    forall x | x in s.runners
      ensures OneRunner(th, x, s.runners[x])
    {
      assert OneRunner(s.task.threads, x, s.runners[x]);
    }
  }

  lemma {:induction false} InvAt(cfg: Settings, trace: seq<Sys>, events: seq<Event>, j: nat)
    requires Follows(cfg, trace, events) && (Inv(trace[0]) || exists now :: trace[0] == Initial(now)) && j < |trace|
    ensures Inv(trace[j])
  {
    if j > 0 {
      InvAt(cfg, trace, events, j - 1);
      StepKeeps(trace[j - 1], cfg, events[j - 1]);
    }
  }

  // ---------------------------------------------------------------- generation exclusion

  predicate Superseded(s: Sys, tid: Tid) {
    tid in s.runners && s.runners[tid].gen < s.task.threads.generation
  }

  /** Superseded is for ever, and a superseded thread that is still alive reads `stopping` as true,
      whatever happens to the stop event. */
  lemma {:induction false} SupersededReadsStopping(cfg: Settings, trace: seq<Sys>, events: seq<Event>, i: nat,
                                                   j: nat, tid: Tid)
    requires Follows(cfg, trace, events) && Inv(trace[0]) && i <= j < |trace| && Superseded(trace[i], tid)
    ensures Inv(trace[j]) && Superseded(trace[j], tid)
    ensures Alive(trace[j], tid) ==> Stopping(trace[j].task, tid)
    decreases j
  {
    if j == i {
      InvAt(cfg, trace, events, j);
    } else {
      SupersededReadsStopping(cfg, trace, events, i, j - 1, tid);
      StepKeeps(trace[j - 1], cfg, events[j - 1]);
    }
    assert OneRunner(trace[j].task.threads, tid, trace[j].runners[tid]);
  }

  predicate ActsAs(e: Event, tid: Tid) {
    match e
    case Beat(caller) => caller == tid
    case Leave(t, _) => t == tid
    case Section(t) => t == tid
    case Wake(t, _) => t == tid
    case _ => false
  }

  /** Nothing a superseded thread does changes the shared fields, except that one already past the round count
      may still add its last delay to the backoff history. */
  lemma SupersededCannotInterfere(s: Sys, cfg: Settings, e: Event, tid: Tid)
    requires Inv(s) && Enabled(s, e) && ActsAs(e, tid) && Superseded(s, tid)
    ensures var n := Apply(s, cfg, e).task;
            && n.stop == s.task.stop && n.threads == s.task.threads
            && n.marks == s.task.marks && n.tally == s.task.tally
            && (n.history == s.task.history
                || (s.runners[tid].pc.NoteBackoff? && n.history == s.task.history + [s.runners[tid].backoff]))
  {
    assert OneRunner(s.task.threads, tid, s.runners[tid]);
  }

  /** Only these places still lead into the supervised function. */
  predicate PastCheck(pc: Pc) {
    pc.Clock? || pc.Open? || pc.MarkRound? || pc.Call?
  }

  predicate Enters(s: Sys, e: Event, tid: Tid) {
    e == Section(tid) && tid in s.runners && s.runners[tid].pc.Call?
  }

  function Entries(trace: seq<Sys>, events: seq<Event>, tid: Tid, i: nat, j: nat): nat
    requires i <= j < |trace| && |trace| == |events| + 1
    decreases j
  {
    if i == j then 0
    else Entries(trace, events, tid, i, j - 1) + (if Enters(trace[j - 1], events[j - 1], tid) then 1 else 0)
  }

  /** From the moment it is superseded, a thread enters the supervised function at most once more, and only
      if it had already passed the generation check. */
  lemma {:induction false} AtMostOneMoreEntry(cfg: Settings, trace: seq<Sys>, events: seq<Event>, tid: Tid,
                                              i: nat, j: nat)
    requires Follows(cfg, trace, events) && Inv(trace[0]) && i <= j < |trace| && Superseded(trace[i], tid)
    ensures tid in trace[j].runners
    ensures Entries(trace, events, tid, i, j) + (if PastCheck(trace[j].runners[tid].pc) then 1 else 0)
         <= if PastCheck(trace[i].runners[tid].pc) then 1 else 0
    decreases j
  {
    if i < j {
      AtMostOneMoreEntry(cfg, trace, events, tid, i, j - 1);
      SupersededReadsStopping(cfg, trace, events, i, j - 1, tid);
      PastCheckOnlyOnce(trace[j - 1], cfg, events[j - 1], tid);
    }
  }

  lemma PastCheckOnlyOnce(s: Sys, cfg: Settings, e: Event, tid: Tid)
    requires Inv(s) && Enabled(s, e) && Superseded(s, tid)
    ensures tid in Apply(s, cfg, e).runners
    ensures var after := PastCheck(Apply(s, cfg, e).runners[tid].pc);
            && (after ==> PastCheck(s.runners[tid].pc))
            && (Enters(s, e, tid) ==> PastCheck(s.runners[tid].pc) && !after)
  {
    if ActsAs(e, tid) {
      assert !e.Beat? ==> tid in s.runners;
    } else {
      Bystander(s, cfg, e, tid);
    }
  }

  /** Two runner threads never both read `stopping` as false: at most one does the work. */
  lemma OneWorker(s: Sys, a: Tid, b: Tid)
    requires Inv(s) && Alive(s, a) && Alive(s, b) && a != b
    ensures Stopping(s.task, a) || Stopping(s.task, b)
  {
    assert OneRunner(s.task.threads, a, s.runners[a]);
    assert OneRunner(s.task.threads, b, s.runners[b]);
  }

  // ---------------------------------------------------------------- restarts are counted

  /** A round ends here that the current generation ran without seeing a stop request. */
  predicate EndsRound(s: Sys, e: Event) {
    e.Section? && e.tid in s.runners && s.runners[e.tid].pc.CountIt?
    && s.runners[e.tid].gen == s.task.threads.generation
  }

  predicate Abandoning(s: Sys, cfg: Settings, e: Event) {
    e.Watchdog? && Abandons(s.task, cfg, s.now, ThreadAlive(s))
  }

  function RoundsEnded(trace: seq<Sys>, events: seq<Event>, n: nat): nat
    requires n <= |events| < |trace|
  {
    if n == 0 then 0
    else RoundsEnded(trace, events, n - 1) + (if EndsRound(trace[n - 1], events[n - 1]) then 1 else 0)
  }

  function Abandonments(cfg: Settings, trace: seq<Sys>, events: seq<Event>, n: nat): nat
    requires n <= |events| < |trace|
  {
    if n == 0 then 0
    else Abandonments(cfg, trace, events, n - 1) + (if Abandoning(trace[n - 1], cfg, events[n - 1]) then 1 else 0)
  }

  /** `restarts` counts the rounds ended by the current generation plus the abandonments, and nothing
      else, over every run. */
  lemma {:induction false} RestartsAreCounted(cfg: Settings, trace: seq<Sys>, events: seq<Event>, now: real, n: nat)
    requires Follows(cfg, trace, events) && trace[0] == Initial(now) && n < |trace|
    ensures trace[n].task.tally.abandoned == Abandonments(cfg, trace, events, n)
    ensures trace[n].task.tally.restarts
         == RoundsEnded(trace, events, n) + trace[n].task.tally.abandoned
  {
    if n > 0 {
      RestartsAreCounted(cfg, trace, events, now, n - 1);
      CountsOnce(trace[n - 1], cfg, events[n - 1]);
    }
  }

  lemma CountsOnce(s: Sys, cfg: Settings, e: Event)
    requires Enabled(s, e)
    ensures var n := Apply(s, cfg, e).task.tally;
            && n.abandoned == s.task.tally.abandoned + (if Abandoning(s, cfg, e) then 1 else 0)
            && n.restarts == s.task.tally.restarts + (if EndsRound(s, e) then 1 else 0)
                             + (if Abandoning(s, cfg, e) then 1 else 0)
  {
  }

  // ---------------------------------------------------------------- restarts are paced

  /** Staleness is measured from `t` or later. */
  predicate FreshSince(s: Sys, t: real) {
    s.now >= t && Ref(s.task.marks).Some? && Ref(s.task.marks).value >= t
  }

  lemma FreshStays(s: Sys, cfg: Settings, e: Event, t: real)
    requires Enabled(s, e) && FreshSince(s, t)
    ensures FreshSince(Apply(s, cfg, e), t)
  {
  }

  lemma {:induction false} FreshAfterAbandon(cfg: Settings, trace: seq<Sys>, events: seq<Event>, i: nat, j: nat)
    requires Follows(cfg, trace, events) && i < j < |trace| && Abandoning(trace[i], cfg, events[i])
    ensures FreshSince(trace[j], trace[i].now)
    decreases j
  {
    if i + 1 < j {
      FreshAfterAbandon(cfg, trace, events, i, j - 1);
      FreshStays(trace[j - 1], cfg, events[j - 1], trace[i].now);
    }
  }

  /** Two abandonments are more than `stallTimeout` apart. */
  lemma AbandonmentsApart(cfg: Settings, trace: seq<Sys>, events: seq<Event>, i: nat, j: nat)
    requires Follows(cfg, trace, events) && i < j < |events|
    requires Abandoning(trace[i], cfg, events[i]) && Abandoning(trace[j], cfg, events[j])
    ensures trace[j].now - trace[i].now > cfg.stallTimeout
  {
    FreshAfterAbandon(cfg, trace, events, i, j);
  }

  // ---------------------------------------------------------------- backoff

  function Doubled(x: real, k: nat): real {
    if k == 0 then x else 2.0 * Doubled(x, k - 1)
  }

  /** How many sleeps ago the last settled round, or the start of the thread, was. */
  function Streak(log: seq<Nap>): nat
    requires log != []
  {
    var n := |log| - 1;
    if log[n].settled || n == 0 then 0 else Streak(log[..n]) + 1
  }

  /** The first sleep of a streak is the initial delay; later ones double up to the maximum. */
  function Delay(cfg: Settings, k: nat): real {
    if k == 0 then cfg.backoffInitial else Min(Delay(cfg, k - 1) * 2.0, cfg.backoffMax)
  }

  /** The k-th sleep of a streak lasts min(initial * 2^k, max), for every k exactly when the initial
      delay is not above the maximum; a larger one is used once, unclamped. */
  lemma {:induction false} DelayIsClampedDoubling(cfg: Settings, k: nat)
    requires cfg.backoffInitial <= cfg.backoffMax || cfg.backoffMax >= 0.0
    ensures Delay(cfg, k) == if k == 0 then cfg.backoffInitial else Min(Doubled(cfg.backoffInitial, k), cfg.backoffMax)
    ensures cfg.backoffInitial <= cfg.backoffMax
            ==> Delay(cfg, k) == Min(Doubled(cfg.backoffInitial, k), cfg.backoffMax)
  {
    if k > 0 {
      DelayIsClampedDoubling(cfg, k - 1);
    }
  }

  lemma FirstDelayClampedIff(cfg: Settings)
    ensures (forall k: nat :: Delay(cfg, k) == Min(Doubled(cfg.backoffInitial, k), cfg.backoffMax))
       <==> cfg.backoffInitial <= cfg.backoffMax
  {
    assert Delay(cfg, 0) == cfg.backoffInitial && Doubled(cfg.backoffInitial, 0) == cfg.backoffInitial;
    if cfg.backoffInitial <= cfg.backoffMax {
      forall k: nat
        ensures Delay(cfg, k) == Min(Doubled(cfg.backoffInitial, k), cfg.backoffMax)
      {
        DelayIsClampedDoubling(cfg, k);
      }
    }
  }

  /** Every sleep in the log lasted what its place in its streak says. */
  predicate LogPaced(cfg: Settings, log: seq<Nap>) {
    log == []
    || (log[|log| - 1].delay == Delay(cfg, Streak(log)) && LogPaced(cfg, log[..|log| - 1]))
  }

  /** The runner's `backoff` variable, from its log. */
  function NextDelay(cfg: Settings, r: Runner): real {
    if (r.pc.MarkBackoff? || r.pc.NoteBackoff?) && r.pc.settled then cfg.backoffInitial
    else if r.log == [] then cfg.backoffInitial
    else if r.pc.Sleep? then r.log[|r.log| - 1].delay
    else Delay(cfg, Streak(r.log) + 1)
  }

  predicate Paced(cfg: Settings, r: Runner) {
    && LogPaced(cfg, r.log)
    && (r.pc.Sleep? ==> r.log != [])
    && (r.pc.Dead? || r.pc.Exit? || r.backoff == NextDelay(cfg, r))
  }

  ghost predicate AllPaced(s: Sys, cfg: Settings) {
    forall tid :: tid in s.runners ==> Paced(cfg, s.runners[tid])
  }

  lemma LogGrows(cfg: Settings, r: Runner)
    requires Paced(cfg, r) && r.pc.NoteBackoff?
    ensures LogPaced(cfg, r.log + [Nap(r.pc.settled, r.backoff)])
  {
    var log := r.log + [Nap(r.pc.settled, r.backoff)];
    assert log[..|log| - 1] == r.log;
  }

  lemma WakeIsPaced(cfg: Settings, r: Runner, stopped: bool)
    requires Paced(cfg, r) && r.pc.Sleep?
    ensures Paced(cfg, Woken(cfg, r, stopped))
  {
    assert r.log[|r.log| - 1].delay == Delay(cfg, Streak(r.log));
  }

  lemma NoteIsPaced(t: Task, cfg: Settings, now: real, r: Runner)
    requires Paced(cfg, r) && r.pc.NoteBackoff?
    ensures Paced(cfg, RunnerAfter(t, cfg, now, r))
  {
    LogGrows(cfg, r);
    var next := RunnerAfter(t, cfg, now, r);
    assert next.log == r.log + [Nap(r.pc.settled, r.backoff)] && next.backoff == r.backoff;
    assert next.log[|next.log| - 1].delay == r.backoff;
  }

  lemma SectionIsPaced(t: Task, cfg: Settings, now: real, r: Runner)
    requires Paced(cfg, r) && !r.pc.Sleep? && !r.pc.InFn? && !r.pc.Dead? && !r.pc.NoteBackoff?
    ensures Paced(cfg, RunnerAfter(t, cfg, now, r))
  {
    assert RunnerAfter(t, cfg, now, r).log == r.log;
  }

  lemma StepPaced(s: Sys, cfg: Settings, e: Event)
    requires Enabled(s, e) && AllPaced(s, cfg)
    ensures AllPaced(Apply(s, cfg, e), cfg)
  {
    var n := Apply(s, cfg, e);
    forall tid | tid in n.runners
      ensures Paced(cfg, n.runners[tid])
    {
      if tid in s.runners {
        assert Paced(cfg, s.runners[tid]);
        if e == Section(tid) {
          if s.runners[tid].pc.NoteBackoff? {
            NoteIsPaced(s.task, cfg, s.now, s.runners[tid]);
          } else {
            SectionIsPaced(s.task, cfg, s.now, s.runners[tid]);
          }
        } else if e.Wake? && e.tid == tid {
          WakeIsPaced(cfg, s.runners[tid], e.stopped);
        } else if e.Leave? && e.tid == tid {
          assert n.runners[tid].log == s.runners[tid].log;
        } else {
          Bystander(s, cfg, e, tid);
        }
      }
    }
  }

  lemma Bystander(s: Sys, cfg: Settings, e: Event, tid: Tid)
    requires Enabled(s, e) && tid in s.runners && (!ActsAs(e, tid) || e.Beat?)
    ensures tid in Apply(s, cfg, e).runners && Apply(s, cfg, e).runners[tid] == s.runners[tid]
  {
  }

  /** In every run every thread sleeps min(initial * 2^k, max) for the k-th time since it started or
      last settled. */
  lemma {:induction false} SleepsArePaced(cfg: Settings, trace: seq<Sys>, events: seq<Event>, now: real, i: nat)
    requires Follows(cfg, trace, events) && trace[0] == Initial(now) && i < |trace|
    ensures AllPaced(trace[i], cfg)
  {
    if i > 0 {
      SleepsArePaced(cfg, trace, events, now, i - 1);
      StepPaced(trace[i - 1], cfg, events[i - 1]);
    }
  }
}
