/** Supervised threads with generations: `SupervisedTask` and `Supervisor`.  Every critical section
    of it is a function on `Task`, the value of its fields; the class updates the fields in
    place and is proved against them. */
module Supervisor {
  import opened Options

  /** Thread objects: never reused, unlike thread idents. */
  type Tid = nat

  datatype Fault = StallFault | CrashFault | ReturnFault | JoinFault

  datatype Threads = Threads(thread: Option<Tid>, active: Option<Tid>, owner: map<Tid, nat>, generation: nat)

  datatype Marks = Marks(startedAt: Option<real>, roundStarted: Option<real>, lastHeartbeat: Option<real>,
                         lastProgress: Option<real>)

  datatype Tally = Tally(restarts: nat, failures: nat, abandoned: nat, lastError: Option<Fault>,
                         joinFailed: bool, finished: bool)

  datatype Task = Task(stop: bool, threads: Threads, marks: Marks, tally: Tally, history: seq<real>)

  datatype Settings = Settings(backoffInitial: real, backoffMax: real, resetAfter: real, stallTimeout: real,
                               restartOnStall: bool)

  // ---------------------------------------------------------------- liveness

  predicate IsCurrent(t: Task, caller: Tid) {
    t.threads.active == Some(caller)
  }

  function Beaten(t: Task, caller: Tid, now: real): Task {
    if IsCurrent(t, caller) then t.(marks := t.marks.(lastHeartbeat := Some(now), lastProgress := Some(now)))
    else t
  }

  function Marked(t: Task, caller: Tid, now: real): Task {
    if IsCurrent(t, caller) then t.(marks := t.marks.(lastHeartbeat := Some(now))) else t
  }

  /** The `stopping` property as `caller` reads it. */
  predicate Stopping(t: Task, caller: Tid) {
    t.stop || (caller in t.threads.owner && t.threads.owner[caller] != t.threads.generation)
  }

  /** What staleness is measured from. */
  function Ref(m: Marks): Option<real> {
    if m.lastProgress.Some? then m.lastProgress else m.lastHeartbeat
  }

  predicate Stalled(t: Task, cfg: Settings, now: real, alive: bool) {
    && !t.stop && t.threads.thread.Some? && alive
    && Ref(t.marks).Some? && now - Ref(t.marks).value > cfg.stallTimeout
  }

  // ---------------------------------------------------------------- lifecycle

  function Spawned(th: Threads, newcomer: Tid): Threads {
    Threads(Some(newcomer), Some(newcomer), th.owner[newcomer := th.generation + 1], th.generation + 1)
  }

  function Started(t: Task, newcomer: Tid, now: real, alive: bool): Task {
    if t.threads.thread.Some? && alive then t
    else Task(false, Spawned(t.threads, newcomer), Marks(Some(now), None, Some(now), None),
              t.tally.(finished := false, joinFailed := false, failures := 0), t.history)
  }

  predicate Abandons(t: Task, cfg: Settings, now: real, alive: bool) {
    cfg.restartOnStall && Stalled(t, cfg, now, alive)
  }

  function Replaced(t: Task, newcomer: Tid, now: real): Task {
    Task(t.stop, Spawned(t.threads, newcomer), t.marks.(lastHeartbeat := Some(now), lastProgress := None),
         t.tally.(abandoned := t.tally.abandoned + 1, restarts := t.tally.restarts + 1,
                  lastError := Some(StallFault), finished := false), t.history)
  }

  function Restarted(t: Task, cfg: Settings, newcomer: Tid, now: real, alive: bool): Task {
    if Abandons(t, cfg, now, alive) then Replaced(t, newcomer, now) else t
  }

  function JoinExpired(t: Task): Task {
    t.(tally := t.tally.(joinFailed := true, lastError := Some(JoinFault)))
  }

  // ---------------------------------------------------------------- the runner's critical sections

  function RoundOpened(t: Task, gen: nat, start: real): Task {
    if gen == t.threads.generation then t.(marks := t.marks.(roundStarted := Some(start))) else t
  }

  function Noted(t: Task, gen: nat, f: Fault): Task {
    if gen == t.threads.generation then t.(tally := t.tally.(lastError := Some(f))) else t
  }

  function RoundCounted(t: Task, gen: nat, settled: bool): Task {
    if gen != t.threads.generation then t
    else t.(marks := t.marks.(roundStarted := None),
            tally := t.tally.(restarts := t.tally.restarts + 1,
                              failures := if settled then 0 else t.tally.failures + 1))
  }

  function Finished(t: Task, gen: nat): Task {
    if gen == t.threads.generation then t.(tally := t.tally.(finished := true)) else t
  }

  function Min(a: real, b: real): real {
    if b < a then b else a
  }

  // ---------------------------------------------------------------- the object

  class SupervisedTask {
    const cfg: Settings
    var stop: bool
    var thread: Option<Tid>
    var active: Option<Tid>
    var owner: map<Tid, nat>
    var generation: nat
    var startedAt: Option<real>
    var roundStarted: Option<real>
    var lastHeartbeat: Option<real>
    var lastProgress: Option<real>
    var restarts: nat
    var failures: nat
    var abandoned: nat
    var lastError: Option<Fault>
    var joinFailed: bool
    var finished: bool
    var history: seq<real>

    ghost function ThreadsView(): Threads
      reads `thread, `active, `owner, `generation
    {
      Threads(thread, active, owner, generation)
    }

    ghost function MarksView(): Marks
      reads `startedAt, `roundStarted, `lastHeartbeat, `lastProgress
    {
      Marks(startedAt, roundStarted, lastHeartbeat, lastProgress)
    }

    ghost function TallyView(): Tally
      reads `restarts, `failures, `abandoned, `lastError, `joinFailed, `finished
    {
      Tally(restarts, failures, abandoned, lastError, joinFailed, finished)
    }

    ghost function View(): Task
      reads this
    {
      Task(stop, ThreadsView(), MarksView(), TallyView(), history)
    }

    constructor (cfg: Settings)
      ensures View() == NewTask() && this.cfg == cfg
    {
      this.cfg, stop, thread, active, owner, generation := cfg, false, None, None, map[], 0;
      startedAt, roundStarted, lastHeartbeat, lastProgress := None, None, None, None;
      restarts, failures, abandoned, lastError, joinFailed, finished := 0, 0, 0, None, false, false;
      history := [];
    }

    method Heartbeat(caller: Tid, now: real)
      modifies `lastHeartbeat, `lastProgress
      ensures View() == Beaten(old(View()), caller, now)
    {
      if active != Some(caller) {
        return;
      }
      lastHeartbeat := Some(now);
      lastProgress := Some(now);
    }

    method MarkAlive(caller: Tid, now: real)
      modifies `lastHeartbeat
      ensures View() == Marked(old(View()), caller, now)
    {
      if active != Some(caller) {
        return;
      }
      lastHeartbeat := Some(now);
    }

    method ReadStopping(caller: Tid) returns (stopping: bool)
      ensures stopping == Stopping(View(), caller)
    {
      if stop {
        return true;
      }
      var gen := if caller in owner then Some(owner[caller]) else None;
      return gen.Some? && gen.value != generation;
    }

    method ReadStalled(now: real, alive: bool) returns (stalled: bool)
      ensures stalled == Stalled(View(), cfg, now, alive)
    {
      if stop {
        return false;
      }
      if thread.None? || !alive {
        return false;
      }
      var ref := if lastProgress.Some? then lastProgress else lastHeartbeat;
      if ref.None? {
        return false;
      }
      return now - ref.value > cfg.stallTimeout;
    }

    method SpawnLocked(newcomer: Tid)
      modifies `generation, `thread, `active, `owner
      ensures ThreadsView() == Spawned(old(ThreadsView()), newcomer)
    {
      generation := generation + 1;
      thread := Some(newcomer);
      active := Some(newcomer);
      owner := owner[newcomer := generation];
    }

    method Start(newcomer: Tid, now: real, alive: bool)
      modifies `stop, `finished, `joinFailed, `failures, `startedAt, `lastHeartbeat, `lastProgress, `roundStarted
      modifies `generation, `thread, `active, `owner
      ensures View() == Started(old(View()), newcomer, now, alive)
    {
      if thread.Some? && alive {
        return;
      }
      ResetRecord();
      ResetMarks(now);
      SpawnLocked(newcomer);
    }

    method ResetRecord()
      modifies `stop, `finished, `joinFailed, `failures
      ensures !stop && TallyView() == old(TallyView()).(finished := false, joinFailed := false, failures := 0)
    {
      stop := false;
      finished := false;
      joinFailed := false;
      failures := 0;
    }

    method ResetMarks(now: real)
      modifies `startedAt, `lastHeartbeat, `lastProgress, `roundStarted
      ensures MarksView() == Marks(Some(now), None, Some(now), None)
    {
      startedAt := Some(now);
      lastHeartbeat := startedAt;
      lastProgress := None;
      roundStarted := None;
    }

    method RestartStalled(newcomer: Tid, now: real, alive: bool) returns (did: bool)
      modifies `abandoned, `restarts, `lastError, `finished, `lastHeartbeat, `lastProgress
      modifies `generation, `thread, `active, `owner
      ensures View() == Restarted(old(View()), cfg, newcomer, now, alive)
      ensures did == Abandons(old(View()), cfg, now, alive)
    {
      if !cfg.restartOnStall {
        return false;
      }
      var stalled := ReadStalled(now, alive);
      if stop || !stalled {
        return false;
      }
      Replace(newcomer, now);
      return true;
    }

    method Replace(newcomer: Tid, now: real)
      modifies `abandoned, `restarts, `lastError, `finished, `lastHeartbeat, `lastProgress
      modifies `generation, `thread, `active, `owner
      ensures View() == Replaced(old(View()), newcomer, now)
    {
      RecordAbandonment();
      lastHeartbeat := Some(now);
      lastProgress := None;
      assert MarksView() == old(MarksView()).(lastHeartbeat := Some(now), lastProgress := None);
      SpawnLocked(newcomer);
    }

    method RecordAbandonment()
      modifies `abandoned, `restarts, `lastError, `finished
      ensures TallyView() == old(TallyView()).(abandoned := old(abandoned) + 1, restarts := old(restarts) + 1,
                                               lastError := Some(StallFault), finished := false)
    {
      abandoned := abandoned + 1;
      restarts := restarts + 1;
      lastError := Some(StallFault);
      finished := false;
    }

    /** The end of `stop` when the thread outlived the join. */
    method ReportJoinExpired()
      modifies `joinFailed, `lastError
      ensures View() == JoinExpired(old(View()))
    {
      joinFailed := true;
      lastError := Some(JoinFault);
    }

    method OpenRound(gen: nat, start: real)
      modifies `roundStarted
      ensures View() == RoundOpened(old(View()), gen, start)
    {
      if gen == generation {
        roundStarted := Some(start);
      }
    }

    method NoteFault(gen: nat, f: Fault)
      modifies `lastError
      ensures View() == Noted(old(View()), gen, f)
    {
      if gen == generation {
        lastError := Some(f);
      }
    }

    /** False when the runner finds itself superseded and leaves. */
    method CountRound(gen: nat, settled: bool) returns (current: bool)
      modifies `restarts, `roundStarted, `failures
      ensures View() == RoundCounted(old(View()), gen, settled)
      ensures current == (gen == generation)
    {
      if gen != generation {
        return false;
      }
      restarts := restarts + 1;
      roundStarted := None;
      if settled {
        failures := 0;
      } else {
        failures := failures + 1;
      }
      return true;
    }

    method Finish(gen: nat)
      modifies `finished
      ensures View() == Finished(old(View()), gen)
    {
      if gen == generation {
        finished := true;
      }
    }
  }

  function NewTask(): Task {
    Task(false, Threads(None, None, map[], 0), Marks(None, None, None, None), Tally(0, 0, 0, None, false, false), [])
  }

  /** One watchdog pass over the registry: each task is restarted on its own merits, in order. */
  method WatchdogTick(tasks: seq<SupervisedTask>, newcomers: seq<Tid>, now: real, alive: seq<bool>)
    returns (restarted: seq<nat>)
    requires |newcomers| == |tasks| == |alive|
    requires forall i, j :: 0 <= i < j < |tasks| ==> tasks[i] != tasks[j]
    modifies set i | 0 <= i < |tasks| :: tasks[i]
    ensures forall i :: 0 <= i < |tasks| ==>
              tasks[i].View() == Restarted(old(tasks[i].View()), tasks[i].cfg, newcomers[i], now, alive[i])
    ensures forall i :: 0 <= i < |tasks| ==>
              (i in restarted <==> Abandons(old(tasks[i].View()), tasks[i].cfg, now, alive[i]))
    ensures forall k :: 0 <= k < |restarted| ==> restarted[k] < |tasks|
  {
    restarted := [];
    var n := 0;
    while n < |tasks|
      invariant 0 <= n <= |tasks|
      invariant forall i :: 0 <= i < n ==>
                  tasks[i].View() == Restarted(old(tasks[i].View()), tasks[i].cfg, newcomers[i], now, alive[i])
      invariant forall i :: n <= i < |tasks| ==> tasks[i].View() == old(tasks[i].View())
      invariant forall i :: 0 <= i < n ==>
                  (i in restarted <==> Abandons(old(tasks[i].View()), tasks[i].cfg, now, alive[i]))
      invariant forall k :: 0 <= k < |restarted| ==> restarted[k] < n
    {
      var did := tasks[n].RestartStalled(newcomers[n], now, alive[n]);
      if did {
        restarted := restarted + [n];
      }
      n := n + 1;
    }
  }
}
