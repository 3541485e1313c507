/** The orphan guard over real time: heartbeats at most `h` apart, broadcasts at most `d` apart while
    the run is alive, and the agent's timeout.  A message is delivered when it is sent, to subscribers
    only, and resubscribing succeeds. */
module OrphanGuard {
  import opened Options
  import opened Scheduler
  import opened Agent

  /** `broadcasting` says whether the run is alive, so that broadcasts keep coming. */
  datatype Params = Params(h: real, d: real, timeout: real, broadcasting: bool)

  predicate Sensible(p: Params) {
    p.h > 0.0 && p.d > 0.0 && p.timeout > 0.0
  }

  datatype World = World(agent: AgentState, now: real, lastBeat: real, lastCast: real)

  datatype Happening =
    | Tick(dt: real)
    | Beat
    | Cast(step: int, wake: bool, turn: Turn, ok: bool)
    | OwnTopic

  predicate Enabled(p: Params, w: World, e: Happening) {
    match e
    case Tick(dt) =>
      && dt > 0.0
      && w.now + dt - w.lastBeat <= p.h
      && (p.broadcasting ==> w.now + dt - w.lastCast <= p.d)
    case _ => true
  }

  function Apply(p: Params, w: World, e: Happening): World {
    match e
    case Tick(dt) => w.(now := w.now + dt)
    case Beat => w.(lastBeat := w.now, agent := AfterHeartbeat(w.agent, w.now, p.timeout, true))
    case Cast(step, wake, turn, ok) =>
      w.(lastCast := w.now,
         agent := if w.agent.subscribed
                  then React(w.agent, StepMsg(step), wake, turn, ok).0.(lastMessage := w.now)
                  else w.agent)
    case OwnTopic => w.(agent := AfterAppEvent(w.agent, true).(lastMessage := w.now))
  }

  function Start(): World {
    World(AgentState(0, None, None, true, false, 0.0), 0.0, 0.0, 0.0)
  }

  ghost predicate Run(p: Params, trace: seq<World>, events: seq<Happening>) {
    && |trace| == |events| + 1
    && trace[0] == Start()
    && forall i :: 0 <= i < |events| ==> Enabled(p, trace[i], events[i])
                                         && trace[i + 1] == Apply(p, trace[i], events[i])
  }

  ghost predicate Reachable(p: Params, w: World) {
    exists trace: seq<World>, events: seq<Happening> :: Run(p, trace, events) && trace[|events|] == w
  }

  // ---------------------------------------------------------------- teardown happens in time

  predicate Timely(p: Params, w: World) {
    && w.agent.lastMessage <= w.now
    && w.lastBeat <= w.now <= w.lastBeat + p.h
    && w.lastCast <= w.now
    && (p.broadcasting ==> w.now <= w.lastCast + p.d)
    && (!w.agent.down && !w.agent.subscribed ==> w.agent.sleep == Some(Forever))
    && (!w.agent.down ==> w.lastBeat - w.agent.lastMessage <= p.timeout)
  }

  lemma ReactQuietly(a: AgentState, step: int, wake: bool, turn: Turn, ok: bool)
    requires !a.down && !a.subscribed ==> a.sleep == Some(Forever)
    requires a.subscribed
    ensures var b := React(a, StepMsg(step), wake, turn, ok).0;
            (!b.down && !b.subscribed ==> b.sleep == Some(Forever)) && (a.down ==> b.down)
  {
  }

  lemma TimelyKept(p: Params, w: World, e: Happening)
    requires Sensible(p) && Timely(p, w) && Enabled(p, w, e)
    ensures Timely(p, Apply(p, w, e))
  {
    if e.Cast? && w.agent.subscribed {
      ReactQuietly(w.agent, e.step, e.wake, e.turn, e.ok);
    }
  }

  lemma {:induction false} TimelyInRun(p: Params, trace: seq<World>, events: seq<Happening>, i: nat)
    requires Sensible(p) && Run(p, trace, events) && i < |trace|
    ensures Timely(p, trace[i])
  {
    if i > 0 {
      TimelyInRun(p, trace, events, i - 1);
      TimelyKept(p, trace[i - 1], events[i - 1]);
    }
  }

  /** Whatever the agent is doing, it is down within `timeout + h` of its last message. */
  lemma OrphansAreReclaimed(p: Params, w: World)
    requires Sensible(p) && Reachable(p, w) && w.now - w.agent.lastMessage > p.timeout + p.h
    ensures w.agent.down
  {
    var trace: seq<World>, events: seq<Happening> :| Run(p, trace, events) && trace[|events|] == w;
    TimelyInRun(p, trace, events, |events|);
  }

  // ---------------------------------------------------------------- no false orphan

  predicate Refreshed(p: Params, w: World) {
    && (!w.agent.down && !w.agent.subscribed ==> w.lastBeat - w.agent.lastMessage <= p.timeout / 2.0)
    && (!w.agent.down && w.agent.subscribed ==> w.lastCast - w.agent.lastMessage <= p.timeout / 2.0 + p.h)
  }

  lemma RefreshedKept(p: Params, w: World, e: Happening)
    requires Sensible(p) && p.broadcasting && p.h + p.d <= p.timeout / 2.0
    requires Timely(p, w) && Refreshed(p, w) && Enabled(p, w, e)
    ensures Refreshed(p, Apply(p, w, e))
    ensures e.Beat? ==> Apply(p, w, e).agent.down == w.agent.down
  {
    if e.Cast? && w.agent.subscribed {
      ReactQuietly(w.agent, e.step, e.wake, e.turn, e.ok);
    }
  }

  lemma {:induction false} RefreshedInRun(p: Params, trace: seq<World>, events: seq<Happening>, i: nat)
    requires Sensible(p) && p.broadcasting && p.h + p.d <= p.timeout / 2.0
    requires Run(p, trace, events) && i < |trace|
    ensures Refreshed(p, trace[i])
  {
    if i > 0 {
      RefreshedInRun(p, trace, events, i - 1);
      TimelyInRun(p, trace, events, i - 1);
      RefreshedKept(p, trace[i - 1], events[i - 1]);
    }
  }

  /** No heartbeat of a live run ever tears a live agent down. */
  ghost predicate NeverOrphans(p: Params) {
    forall w :: Reachable(p, w) && !w.agent.down ==> !Apply(p, w, Beat).agent.down
  }

  lemma NoFalseOrphan(p: Params)
    requires Sensible(p) && p.broadcasting && p.h + p.d <= p.timeout / 2.0
    ensures NeverOrphans(p)
  {
    forall w | Reachable(p, w) && !w.agent.down
      ensures !Apply(p, w, Beat).agent.down
    {
      var trace: seq<World>, events: seq<Happening> :| Run(p, trace, events) && trace[|events|] == w;
      TimelyInRun(p, trace, events, |events|);
      RefreshedInRun(p, trace, events, |events|);
      RefreshedKept(p, w, Beat);
    }
  }

  // ---------------------------------------------------------------- and the bound is sharp

  lemma ReachStep(p: Params, w: World, e: Happening)
    requires Reachable(p, w) && Enabled(p, w, e)
    ensures Reachable(p, Apply(p, w, e))
  {
    var trace: seq<World>, events: seq<Happening> :| Run(p, trace, events) && trace[|events|] == w;
    assert Run(p, trace + [Apply(p, w, e)], events + [e]);
  }

  const SILENT := Cast(0, false, Worked(true, 0), true)

  /** The sleeper whose last message came at time 0. */
  function Sleeper(subscribed: bool): AgentState {
    AgentState(0, None, Some(Forever), subscribed, false, 0.0)
  }

  /** `n` rounds of at most `m` each cover `gap`. */
  predicate Bridges(n: nat, m: real, gap: real) {
    m > 0.0 && gap <= n as real * m
  }

  lemma EnoughRounds(m: real, gap: real) returns (n: nat)
    requires m > 0.0 && gap >= 0.0
    ensures Bridges(n, m, gap)
  {
    n := (gap / m).Floor + 1;
    assert gap == (gap / m) * m;
    assert gap / m <= n as real;
    assert (gap / m) * m <= n as real * m;
  }

  /** Up to half the timeout the unsubscribed sleeper hears nothing and heartbeats leave it alone. */
  lemma {:induction false} SleepUntil(p: Params, t: real, until: real, n: nat)
    requires Sensible(p) && 0.0 <= t <= until <= p.timeout / 2.0
    requires Reachable(p, World(Sleeper(false), t, t, t))
    requires Bridges(n, if p.h < p.d then p.h else p.d, until - t)
    ensures Reachable(p, World(Sleeper(false), until, until, until))
    decreases n
  {
    var m := if p.h < p.d then p.h else p.d;
    if t < until {
      var dt := if until - t <= m then until - t else m;
      var w := World(Sleeper(false), t, t, t);
      ReachStep(p, w, Tick(dt));
      ReachStep(p, Apply(p, w, Tick(dt)), Beat);
      ReachStep(p, Apply(p, Apply(p, w, Tick(dt)), Beat), SILENT);
      FewerRounds(n, m, until - t, dt);
      SleepUntil(p, t + dt, until, n - 1);
    }
  }

  lemma FewerRounds(n: nat, m: real, gap: real, dt: real)
    requires Bridges(n, m, gap) && gap > 0.0 && (dt == gap || dt == m) && dt <= gap
    ensures n > 0 && Bridges(n - 1, m, gap - dt)
  {
    assert n == 0 ==> n as real * m == 0.0;
    assert (n - 1) as real * m == n as real * m - m;
    if dt == gap {
      assert (n - 1) as real * m >= 0.0;
    }
  }

  /** Broadcasts alone, which the unsubscribed sleeper misses, while no heartbeat is due. */
  lemma {:induction false} MissUntil(p: Params, beat: real, t: real, until: real, n: nat)
    requires Sensible(p) && beat <= t <= until <= beat + p.h
    requires Reachable(p, World(Sleeper(false), t, beat, t)) && Bridges(n, p.d, until - t)
    ensures Reachable(p, World(Sleeper(false), until, beat, until))
    decreases n
  {
    if t < until {
      var dt := if until - t <= p.d then until - t else p.d;
      var w := World(Sleeper(false), t, beat, t);
      ReachStep(p, w, Tick(dt));
      ReachStep(p, Apply(p, w, Tick(dt)), SILENT);
      FewerRounds(n, p.d, until - t, dt);
      MissUntil(p, beat, t + dt, until, n - 1);
    }
  }

  /** A live agent that the next heartbeat tears down. */
  ghost predicate Doomed(p: Params, w: World) {
    Reachable(p, w) && !w.agent.down && Apply(p, w, Beat).agent.down
  }

  /** Heartbeats alone, until the first that finds the deadline passed. */
  lemma {:induction false} BeatUntil(p: Params, cast: real, t: real, until: real, n: nat) returns (w: World)
    requires Sensible(p) && cast <= t <= until <= cast + p.d && until > p.timeout
    requires Reachable(p, World(Sleeper(true), t, t, cast)) && Bridges(n, p.h, until - t)
    ensures Doomed(p, w)
    decreases n
  {
    w := World(Sleeper(true), t, t, cast);
    if t <= p.timeout {
      var dt := if until - t <= p.h then until - t else p.h;
      ReachStep(p, w, Tick(dt));
      var later := Apply(p, w, Tick(dt));
      if later.now > p.timeout {
        w := later;
      } else {
        ReachStep(p, later, Beat);
        FewerRounds(n, p.h, until - t, dt);
        w := BeatUntil(p, cast, t + dt, until, n - 1);
      }
    }
  }

  /** Over the bound, a live sleeper of a live run is torn down: the liveness refresh comes one
      heartbeat too late for the last broadcast, and the next one comes after the deadline. */
  lemma FalseOrphan(p: Params) returns (w: World)
    requires Sensible(p) && p.broadcasting && p.h + p.d > p.timeout / 2.0
    ensures Doomed(p, w)
  {
    assert Run(p, [Start()], []);
    assert Reachable(p, Start());
    var nap := Cast(0, false, Worked(true, -1), true);
    ReachStep(p, Start(), nap);
    assert Apply(p, Start(), nap) == World(Sleeper(false), 0.0, 0.0, 0.0);
    var half := p.timeout / 2.0;
    var n := EnoughRounds(if p.h < p.d then p.h else p.d, half);
    SleepUntil(p, 0.0, half, n);
    n := EnoughRounds(p.d, p.h);
    MissUntil(p, half, half, half + p.h, n);
    var late := World(Sleeper(false), half + p.h, half, half + p.h);
    if half + p.h > p.timeout {
      w := late;
    } else {
      ReachStep(p, late, Beat);
      n := EnoughRounds(p.h, p.d);
      w := BeatUntil(p, half + p.h, half + p.h, half + p.h + p.d, n);
    }
  }

  /** A live run never tears an agent down by mistake exactly when a heartbeat period plus a broadcast
      period fits in half the timeout. */
  lemma OrphanGuardIsSharp(p: Params)
    requires Sensible(p) && p.broadcasting
    ensures NeverOrphans(p) <==> p.h + p.d <= p.timeout / 2.0
  {
    if p.h + p.d <= p.timeout / 2.0 {
      NoFalseOrphan(p);
    } else {
      var w := FalseOrphan(p);
    }
  }
}
