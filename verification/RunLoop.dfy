/** The run loop: the drain-then-shutdown rule of `HorizonDrainTermination`, and the loop that
    spawns, steps both schedulers and asks the rule when to stop. */
module RunLoop {
  import opened Options
  import opened Scheduler
  import Facts = SchedulerFacts
  import Spawner

  // ---------------------------------------------------------------- the rule

  datatype Key = AgentKey | ServiceKey | OtherKey(name: nat)

  datatype Rule = Rule(horizon: int, agentKey: Key, maxDrain: Option<int>)

  type Schedulers = map<Key, Sched>

  predicate PastHorizon(r: Rule, step: int) {
    step >= r.horizon
  }

  predicate DrainCapReached(r: Rule, step: int) {
    r.maxDrain.Some? && step >= r.horizon + r.maxDrain.value
  }

  function AwakeCount(s: Sched): int {
    |s.roster.collection| - |s.naps.until|
  }

  predicate AgentsDrained(r: Rule, schedulers: Schedulers) {
    if r.agentKey in schedulers then AwakeCount(schedulers[r.agentKey]) <= 0
    else forall k :: k in schedulers ==> AwakeCount(schedulers[k]) <= 0
  }

  predicate ServicesDrained(schedulers: Schedulers) {
    ServiceKey in schedulers ==> |schedulers[ServiceKey].roster.collection| == 0
  }

  predicate ReadyForShutdown(r: Rule, step: int, schedulers: Schedulers, exhausted: bool) {
    if DrainCapReached(r, step) then true
    else PastHorizon(r, step) && exhausted && AgentsDrained(r, schedulers)
  }

  predicate ShouldTerminate(r: Rule, step: int, schedulers: Schedulers, exhausted: bool) {
    ReadyForShutdown(r, step, schedulers, exhausted) && ServicesDrained(schedulers)
  }

  predicate IsFinalStep(r: Rule, step: int, schedulers: Schedulers, exhausted: bool) {
    ReadyForShutdown(r, step, schedulers, exhausted) && !ServicesDrained(schedulers)
  }

  /** Before the horizon the rule can only stop a run through the cap, which then lies before the
      horizon: with no cap, or a cap of 0 or more, it never does. */
  lemma StopBeforeHorizon(r: Rule, step: int, schedulers: Schedulers, exhausted: bool)
    requires step < r.horizon
    ensures ShouldTerminate(r, step, schedulers, exhausted)
       <==> DrainCapReached(r, step) && ServicesDrained(schedulers)
    ensures ShouldTerminate(r, step, schedulers, exhausted) ==> r.maxDrain.Some? && r.maxDrain.value < 0
  {
  }

  /** The awake count subtracts every ledger entry, registered or not. */
  lemma AwakeCountMeans(s: Sched)
    ensures var awake := s.roster.collection.Keys - s.naps.until.Keys;
            var ghosts := s.naps.until.Keys - s.roster.collection.Keys;
            AwakeCount(s) == |awake| - |ghosts|
  {
    var c, u := s.roster.collection.Keys, s.naps.until.Keys;
    assert c == (c - u) + (c * u) && u == (u - c) + (c * u);
    assert |c| == |c - u| + |c * u| && |u| == |u - c| + |c * u|;
    assert |s.roster.collection| == |c| && |s.naps.until| == |u|;
  }

  /** So "nobody awake is counted" means every registered agent is napping when all sleepers are
      registered, and otherwise may hide as many awake agents as there are unregistered sleepers. */
  lemma DrainedMeans(s: Sched)
    ensures AwakeCount(s) <= 0
       <==> |s.roster.collection.Keys - s.naps.until.Keys| <= |s.naps.until.Keys - s.roster.collection.Keys|
    ensures s.naps.until.Keys <= s.roster.collection.Keys
       ==> (AwakeCount(s) <= 0 <==> s.roster.collection.Keys == s.naps.until.Keys)
  {
    AwakeCountMeans(s);
    if s.naps.until.Keys <= s.roster.collection.Keys {
      assert s.naps.until.Keys - s.roster.collection.Keys == {};
      if AwakeCount(s) <= 0 {
        assert s.roster.collection.Keys - s.naps.until.Keys == {};
      }
    }
  }

  // ---------------------------------------------------------------- the loop, as a relation

  /** What happens to one scheduler around one step: replies heard before the stop test, between it
      and the final-step test, between that and the barrier, and during the barrier. */
  datatype Input = Input(late: seq<Reply>, mid: seq<Reply>, early: seq<Reply>, replies: seq<Reply>,
                         timedOut: bool)

  datatype StepInput = StepInput(agent: Input, service: Input)

  datatype Setup = Setup(rule: Rule, plan: Spawner.Plan, cfg: Config)

  datatype State = State(agent: Sched, service: Sched)

  function Both(st: State): Schedulers {
    map[AgentKey := st.agent, ServiceKey := st.service]
  }

  function AddAll(collection: map<AgentId, Entry>, items: seq<Spawner.Item>): map<AgentId, Entry> {
    if items == [] then collection
    else
      var x := items[|items| - 1];
      AddAll(collection, items[..|items| - 1])[x.id := Entry(x.id, true)]
  }

  function Spawn(s: Sched, items: seq<Spawner.Item>): Sched {
    s.(roster := s.roster.(collection := AddAll(s.roster.collection, items)))
  }

  /** Whether the source is exhausted before call `n`; it never is before the first call. */
  predicate SourceDone(p: Spawner.Plan, n: nat) {
    n > 0 && Spawner.Exhausted(p, n - 1)
  }

  function AtStopTest(st: State, i: StepInput): State {
    State(AfterReplies(st.agent, i.agent.late), AfterReplies(st.service, i.service.late))
  }

  function AtFinalTest(p: Spawner.Plan, n: nat, st: State, i: StepInput): State {
    var t := AtStopTest(st, i);
    State(AfterReplies(Spawn(t.agent, Spawner.Launched(p, n)), i.agent.mid), AfterReplies(t.service, i.service.mid))
  }

  predicate Stops(u: Setup, n: nat, st: State, i: StepInput) {
    ShouldTerminate(u.rule, n, Both(AtStopTest(st, i)), SourceDone(u.plan, n))
  }

  predicate Final(u: Setup, n: nat, st: State, i: StepInput) {
    IsFinalStep(u.rule, n, Both(AtFinalTest(u.plan, n, st, i)), SourceDone(u.plan, n + 1))
  }

  /** One scheduler's step, for some order of its sweep. */
  ghost predicate Steps(s: Sched, t: Sched, i: Input, isFinal: bool, cfg: Config) {
    var b := AfterReplies(s, i.early);
    && !StepAborts(b, i.replies, i.timedOut, cfg)
    && exists order ::
         && Enumerates(order, Victims(StepWait(b, i.replies, i.timedOut, cfg).barrier))
         && t == Finish(Reap(StepWait(b, i.replies, i.timedOut, cfg), order), EffectiveFinal(b, isFinal, cfg))
  }

  ghost predicate Next(u: Setup, n: nat, st: State, t: State, i: StepInput) {
    var m := AtFinalTest(u.plan, n, st, i);
    && Steps(m.agent, t.agent, i.agent, Final(u, n, st, i), u.cfg)
    && Steps(m.service, t.service, i.service, Final(u, n, st, i), u.cfg)
  }

  predicate Aborts(u: Setup, n: nat, st: State, i: StepInput) {
    var m := AtFinalTest(u.plan, n, st, i);
    || StepAborts(AfterReplies(m.agent, i.agent.early), i.agent.replies, i.agent.timedOut, u.cfg)
    || StepAborts(AfterReplies(m.service, i.service.early), i.service.replies, i.service.timedOut, u.cfg)
  }

  /** `trace[n]` is the state after `n` steps; no stop test before the last state succeeded. */
  ghost predicate IsRun(u: Setup, env: nat -> StepInput, trace: seq<State>) {
    |trace| > 0 && forall n :: 0 <= n < |trace| - 1 ==> GoesOn(u, n, trace[n], trace[n + 1], env(n))
  }

  ghost predicate GoesOn(u: Setup, n: nat, st: State, t: State, i: StepInput) {
    !Stops(u, n, st, i) && Next(u, n, st, t, i)
  }

  lemma RunStep(u: Setup, env: nat -> StepInput, trace: seq<State>, n: nat)
    requires IsRun(u, env, trace) && n + 1 < |trace|
    ensures !Stops(u, n, trace[n], env(n)) && Next(u, n, trace[n], trace[n + 1], env(n))
  {
    assert GoesOn(u, n, trace[n], trace[n + 1], env(n));
  }

  /** A run of `step` turns from `first` to `st`. */
  ghost predicate RunTo(u: Setup, env: nat -> StepInput, trace: seq<State>, step: nat, first: State, st: State) {
    IsRun(u, env, trace) && |trace| == step + 1 && trace[0] == first && trace[step] == st
  }

  lemma RunGrows(u: Setup, env: nat -> StepInput, trace: seq<State>, step: nat, first: State, st: State, t: State)
    requires RunTo(u, env, trace, step, first, st)
    requires !Stops(u, step, st, env(step)) && Next(u, step, st, t, env(step))
    ensures RunTo(u, env, trace + [t], step + 1, first, t)
  {
    var longer := trace + [t];
    forall n | 0 <= n < |longer| - 1
      ensures GoesOn(u, n, longer[n], longer[n + 1], env(n))
    {
      if n < |trace| - 1 {
        assert GoesOn(u, n, trace[n], trace[n + 1], env(n));
      }
    }
  }

  // ---------------------------------------------------------------- what a final step leaves behind

  /** Everyone registered is a victim of the sweep or has a nap in the ledger. */
  ghost predicate Covered(s: Sched) {
    forall a :: a in s.roster.collection ==> a in Victims(s.barrier) || a in s.naps.until
  }

  /** The reply re-registers a stashed agent. */
  predicate Returns(s: Sched, r: Reply) {
    r.agent !in s.roster.collection && Restores(r) && Find(s.roster.stash, r.agent).Some?
  }

  predicate EndsNap(s: Sched, r: Reply) {
    r.sleepSteps == 0 && r.agent in s.naps.until
  }

  /** A reply for this step is a shutdown; one for another step brings nobody back and wakes nobody. */
  predicate Obeys(s: Sched, r: Reply) {
    if r.step == s.time then r.action == Shutdown else !Returns(s, r) && !EndsNap(s, r)
  }

  predicate AllObey(s: Sched, rs: seq<Reply>) {
    rs == [] || (AllObey(s, rs[..|rs| - 1]) && Obeys(AfterReplies(s, rs[..|rs| - 1]), rs[|rs| - 1]))
  }

  lemma ObeyingKeepsCovered(s: Sched, r: Reply)
    requires Covered(s) && Obeys(s, r)
    ensures Covered(AfterReply(s, r)) && AfterReply(s, r).time == s.time
  {
    var t := AfterReply(s, r);
    assert t.roster.collection.Keys == s.roster.collection.Keys;
    Facts.TallyFields(s.barrier, s.time, r);
    forall a | a in t.roster.collection
      ensures a in Victims(t.barrier) || a in t.naps.until
    {
      assert a in Victims(s.barrier) || a in s.naps.until;
    }
  }

  lemma {:induction false} AllObeyingKeepCovered(s: Sched, rs: seq<Reply>)
    requires Covered(s) && AllObey(s, rs)
    ensures Covered(AfterReplies(s, rs)) && AfterReplies(s, rs).time == s.time
  {
    if rs != [] {
      var n := |rs| - 1;
      AllObeyingKeepCovered(s, rs[..n]);
      ObeyingKeepsCovered(AfterReplies(s, rs[..n]), rs[n]);
    }
  }

  lemma {:induction false} SweepLeaves(s: Sched, order: seq<AgentId>)
    ensures forall a :: a in Reap(s, order).roster.collection <==> a in s.roster.collection && a !in order
    ensures forall a :: a !in order ==> (a in Reap(s, order).naps.until <==> a in s.naps.until)
  {
    if order != [] {
      var n := |order| - 1;
      SweepLeaves(s, order[..n]);
      assert order == order[..n] + [order[n]];
    }
  }

  lemma CoveredAreSwept(w: Sched, order: seq<AgentId>)
    requires Covered(w) && Enumerates(order, Victims(w.barrier))
    ensures Finish(Reap(w, order), true).roster.collection == map[]
  {
    SweepLeaves(w, order);
    var swept := Reap(w, order);
    forall a | a in swept.roster.collection
      ensures a in swept.naps.until
    {
      assert a in w.roster.collection && a !in order;
    }
    var gone := swept.naps.until.Keys * swept.roster.collection.Keys;
    assert swept.roster.collection - gone == map[];
  }

  /** A final step empties a scheduler whose agents have all booted and answer it with shutdown, or
      not at all; replies of earlier steps may still arrive. */
  lemma FinalStepEmpties(s: Sched, i: Input, order: seq<AgentId>, cfg: Config)
    requires forall a :: a in s.roster.collection ==> !s.roster.collection[a].pendingBoot
    requires AllObey(BeginBarrier(s), i.replies)
    requires Enumerates(order, Victims(StepWait(s, i.replies, i.timedOut, cfg).barrier))
    ensures Finish(Reap(StepWait(s, i.replies, i.timedOut, cfg), order), true).roster.collection == map[]
  {
    AllObeyingKeepCovered(BeginBarrier(s), i.replies);
    CoveredAreSwept(StepWait(s, i.replies, i.timedOut, cfg), order);
  }

  lemma {:induction false} NobodyReturns(s: Sched, rs: seq<Reply>)
    requires s.roster.collection == map[] && NoReturn(s, rs)
    ensures AfterReplies(s, rs).roster == s.roster
  {
    if rs != [] {
      NobodyReturns(s, rs[..|rs| - 1]);
      assert rs[|rs| - 1] in rs;
    }
  }

  // ---------------------------------------------------------------- when the run stops

  function AtBarrier(u: Setup, n: nat, st: State, i: StepInput): Sched {
    AfterReplies(AtFinalTest(u.plan, n, st, i).service, i.service.early)
  }

  /** What a final step asks of the service agents: all have booted, each answers this step with
      shutdown or stays silent, and no reply of an earlier step brings one back or wakes one. */
  ghost predicate ServicesComply(u: Setup, n: nat, st: State, i: StepInput) {
    var s := AtBarrier(u, n, st, i);
    && (forall a :: a in s.roster.collection ==> !s.roster.collection[a].pendingBoot)
    && AllObey(BeginBarrier(s), i.service.replies)
  }

  /** No late reply brings a stashed agent back. */
  ghost predicate NoReturn(s: Sched, late: seq<Reply>) {
    forall r :: r in late && Restores(r) ==> Find(s.roster.stash, r.agent).None?
  }

  lemma FinalStepThenStop(u: Setup, env: nat -> StepInput, trace: seq<State>, n: nat)
    requires IsRun(u, env, trace) && n + 1 < |trace|
    requires Final(u, n, trace[n], env(n)) && ServicesComply(u, n, trace[n], env(n))
    requires NoReturn(trace[n + 1].service, env(n + 1).service.late)
    requires ReadyForShutdown(u.rule, n + 1, Both(AtStopTest(trace[n + 1], env(n + 1))), SourceDone(u.plan, n + 1))
    ensures Stops(u, n + 1, trace[n + 1], env(n + 1)) && |trace| == n + 2
  {
    RunStep(u, env, trace, n);
    FinalStepLeavesNone(u, n, trace[n], trace[n + 1], env(n));
    NobodyReturns(trace[n + 1].service, env(n + 1).service.late);
    if n + 2 < |trace| {
      RunStep(u, env, trace, n + 1);
    }
  }

  lemma FinalStepLeavesNone(u: Setup, n: nat, st: State, t: State, i: StepInput)
    requires Next(u, n, st, t, i) && Final(u, n, st, i) && ServicesComply(u, n, st, i)
    ensures t.service.roster.collection == map[]
  {
    var s := AtBarrier(u, n, st, i);
    var order :| && Enumerates(order, Victims(StepWait(s, i.service.replies, i.service.timedOut, u.cfg).barrier))
                 && t.service
                 == Finish(Reap(StepWait(s, i.service.replies, i.service.timedOut, u.cfg), order), true);
    FinalStepEmpties(s, i.service, order, u.cfg);
  }

  ghost predicate CompliantRun(u: Setup, env: nat -> StepInput, trace: seq<State>) {
    forall n :: 0 <= n < |trace| - 1 && Final(u, n, trace[n], env(n)) ==>
      ServicesComply(u, n, trace[n], env(n)) && NoReturn(trace[n + 1].service, env(n + 1).service.late)
  }

  /** The first step at which the cap forces the shutdown. */
  function CapStep(r: Rule): nat
    requires r.maxDrain.Some?
  {
    if r.horizon + r.maxDrain.value < 0 then 0 else r.horizon + r.maxDrain.value
  }

  /** No run goes past one step beyond the cap, and one that gets there stops there. */
  lemma StopsByTheCap(u: Setup, env: nat -> StepInput, trace: seq<State>)
    requires u.rule.maxDrain.Some? && IsRun(u, env, trace) && CompliantRun(u, env, trace)
    ensures |trace| - 1 <= CapStep(u.rule) + 1
    ensures |trace| - 1 == CapStep(u.rule) + 1 ==> Stops(u, |trace| - 1, trace[|trace| - 1], env(|trace| - 1))
  {
    var n := CapStep(u.rule);
    if |trace| > n + 1 {
      CapMakesItFinal(u, env, trace, n);
      FinalStepThenStop(u, env, trace, n);
    }
  }

  /** From the cap on, every step the loop takes is a final one: the stop test found a service agent,
      and replies never unregister anyone. */
  lemma CapMakesItFinal(u: Setup, env: nat -> StepInput, trace: seq<State>, n: nat)
    requires IsRun(u, env, trace) && n + 1 < |trace| && DrainCapReached(u.rule, n)
    ensures Final(u, n, trace[n], env(n))
  {
    var i := env(n);
    RunStep(u, env, trace, n);
    var t := AtStopTest(trace[n], i).service;
    assert |t.roster.collection| > 0;
    RepliesKeepAgents(t, i.service.mid);
    var a :| a in t.roster.collection;
    assert a in AtFinalTest(u.plan, n, trace[n], i).service.roster.collection;
  }

  lemma {:induction false} RepliesKeepAgents(s: Sched, rs: seq<Reply>)
    ensures s.roster.collection.Keys <= AfterReplies(s, rs).roster.collection.Keys
  {
    if rs != [] {
      RepliesKeepAgents(s, rs[..|rs| - 1]);
    }
  }

  /** A run that stops before the cap is past its horizon, has launched every item registered for a
      step from 0 on exactly once, counts no awake agent, and has no service agent left. */
  lemma StopMeansDone(u: Setup, n: nat, st: State, i: StepInput)
    requires u.rule.agentKey == AgentKey && Stops(u, n, st, i) && !DrainCapReached(u.rule, n)
    ensures n >= u.rule.horizon && n > 0 && Spawner.Exhausted(u.plan, n - 1)
    ensures multiset(Spawner.LaunchedBefore(u.plan, n)) + Spawner.TooEarly(u.plan.items)
         == Spawner.DomainItems(u.plan.items)
    ensures AwakeCount(AtStopTest(st, i).agent) <= 0 && AtStopTest(st, i).service.roster.collection == map[]
  {
    var t := AtStopTest(st, i);
    StopBeforeCap(u.rule, n, Both(t), SourceDone(u.plan, n));
    AllLaunched(u.plan, n);
  }

  lemma StopBeforeCap(r: Rule, n: nat, schedulers: Schedulers, exhausted: bool)
    requires ShouldTerminate(r, n, schedulers, exhausted) && !DrainCapReached(r, n)
    ensures n >= r.horizon && exhausted
    ensures r.agentKey in schedulers ==> AwakeCount(schedulers[r.agentKey]) <= 0
    ensures ServiceKey in schedulers ==> schedulers[ServiceKey].roster.collection == map[]
  {
  }

  lemma AllLaunched(p: Spawner.Plan, n: nat)
    requires SourceDone(p, n)
    ensures multiset(Spawner.LaunchedBefore(p, n)) + Spawner.TooEarly(p.items) == Spawner.DomainItems(p.items)
  {
    Spawner.ExhaustedMeansAllLaunched(p, n - 1);
  }

  // ---------------------------------------------------------------- stopping before the horizon

  /** A run that ends in a successful stop test before the horizon. */
  ghost predicate StopsEarly(u: Setup, env: nat -> StepInput, trace: seq<State>) {
    && IsRun(u, env, trace)
    && |trace| - 1 < u.rule.horizon
    && Stops(u, |trace| - 1, trace[|trace| - 1], env(|trace| - 1))
  }

  const QUIET: Input := Input([], [], [], [], false)

  /** Nothing registered, nothing to spawn, nobody replies: the state after `n` steps. */
  function Empty(n: nat): State {
    State(Fresh(n), Fresh(n))
  }

  function EmptySetup(r: Rule): Setup {
    Setup(r, Spawner.Plan([], 1, 0), Config(0.0, 1, true, 0))
  }

  lemma EmptyStep(n: nat, cfg: Config)
    requires cfg.allowDrain
    ensures Steps(Fresh(n), Fresh(n + 1), QUIET, false, cfg)
  {
    var w := StepWait(Fresh(n), [], false, cfg);
    assert ExpectedSet(map[], {}) == {} && BootingSet(map[]) == {};
    assert ExpireNaps(Naps(map[], map[]), n) == Naps(map[], map[]);
    assert w == Fresh(n);
    assert Enumerates([], Victims(w.barrier));
    assert Fresh(n + 1) == Finish(Reap(w, []), false);
  }

  lemma {:induction false} NothingLaunched(p: Spawner.Plan, n: nat)
    requires p.items == []
    ensures Spawner.Backlog(p, n) == [] && Spawner.Launched(p, n) == []
  {
    if n > 0 {
      NothingLaunched(p, n - 1);
    }
  }

  lemma EmptyGoesOn(r: Rule, n: nat)
    requires n < r.horizon && !DrainCapReached(r, n)
    ensures GoesOn(EmptySetup(r), n, Empty(n), Empty(n + 1), StepInput(QUIET, QUIET))
  {
    var u, i := EmptySetup(r), StepInput(QUIET, QUIET);
    NothingLaunched(u.plan, n);
    assert AtFinalTest(u.plan, n, Empty(n), i) == Empty(n);
    EmptyStep(n, u.cfg);
  }

  /** With a negative cap and a positive horizon the empty run stops at the cap. */
  lemma EmptyRunStopsEarly(r: Rule) returns (env: nat -> StepInput, trace: seq<State>)
    requires r.maxDrain.Some? && r.maxDrain.value < 0 && r.horizon > 0
    ensures |trace| > 0 && trace[0] == State(Fresh(0), Fresh(0)) && StopsEarly(EmptySetup(r), env, trace)
  {
    env := (n: nat) => StepInput(QUIET, QUIET);
    trace := seq(CapStep(r) + 1, i requires 0 <= i => Empty(i));
    var u := EmptySetup(r);
    forall n | 0 <= n < |trace| - 1
      ensures GoesOn(u, n, trace[n], trace[n + 1], env(n))
    {
      EmptyGoesOn(r, n);
    }
    assert AtStopTest(Empty(CapStep(r)), env(CapStep(r))) == Empty(CapStep(r));
  }

  /** Some run stops before its horizon exactly when the cap is negative and the horizon positive. */
  lemma StopsEarlyIff(r: Rule)
    ensures (exists u: Setup, env: nat -> StepInput, trace: seq<State> :: u.rule == r && StopsEarly(u, env, trace))
       <==> r.maxDrain.Some? && r.maxDrain.value < 0 && r.horizon > 0
  {
    if r.maxDrain.Some? && r.maxDrain.value < 0 && r.horizon > 0 {
      var env, trace := EmptyRunStopsEarly(r);
      assert EmptySetup(r).rule == r;
    }
    forall u: Setup, env: nat -> StepInput, trace: seq<State> | u.rule == r && StopsEarly(u, env, trace)
      ensures r.maxDrain.Some? && r.maxDrain.value < 0 && r.horizon > 0
    {
      var n := |trace| - 1;
      StopBeforeHorizon(r, n, Both(AtStopTest(trace[n], env(n))), SourceDone(u.plan, n));
    }
  }

  // ---------------------------------------------------------------- the object

  datatype Outcome = Stopped | Raised | StillRunning

  class SimulationRuntime {
    const agents: OpenRideScheduler
    const services: OpenRideScheduler
    const source: Spawner.BatchedAgentSource
    const rule: Rule
    const cfg: Config

    constructor (agents: OpenRideScheduler, services: OpenRideScheduler, source: Spawner.BatchedAgentSource,
                 rule: Rule, cfg: Config)
      requires agents != services
      ensures this.agents == agents && this.services == services && this.source == source
      ensures this.rule == rule && this.cfg == cfg && Valid()
    {
      this.agents, this.services, this.source, this.rule, this.cfg := agents, services, source, rule, cfg;
    }

    ghost predicate Valid() {
      agents != services
    }

    ghost function View(): State
      reads agents, services
    {
      State(agents.View(), services.View())
    }

    ghost function TheSetup(): Setup
      reads source
    {
      Setup(rule, Spawner.Plan(source.items, source.cap, source.orderRole), cfg)
    }

    method Hear(s: OpenRideScheduler, rs: seq<Reply>)
      modifies s
      ensures s.View() == AfterReplies(old(s.View()), rs)
    {
      var i := 0;
      while i < |rs|
        invariant 0 <= i <= |rs|
        invariant s.View() == AfterReplies(old(s.View()), rs[..i])
      {
        var _ := s.HandleReply(rs[i]);
        assert rs[..i + 1][..i] == rs[..i];
        i := i + 1;
      }
      assert rs[..i] == rs;
    }

    method SpawnAgents(items: seq<Spawner.Item>)
      modifies agents`collection
      ensures agents.View() == Spawn(old(agents.View()), items)
    {
      var i := 0;
      while i < |items|
        invariant 0 <= i <= |items|
        invariant agents.collection == AddAll(old(agents.collection), items[..i])
      {
        agents.AddAgent(items[i].id, items[i].id);
        assert items[..i + 1][..i] == items[..i];
        i := i + 1;
      }
      assert items[..i] == items;
    }

    method StepOne(s: OpenRideScheduler, i: Input, isFinal: bool) returns (raised: bool)
      modifies s
      ensures !raised ==> Steps(old(s.View()), s.View(), i, isFinal, cfg)
      ensures raised <==> StepAborts(AfterReplies(old(s.View()), i.early), i.replies, i.timedOut, cfg)
    {
      Hear(s, i.early);
      ghost var b := s.View();
      var endSim, up, order := s.Step(isFinal, i.replies, i.timedOut, cfg);
      raised := up;
    }

    method Observe() returns (agentSched: Sched, serviceSched: Sched)
      ensures agentSched == agents.View() && serviceSched == services.View()
    {
      agentSched := Snapshot(agents);
      serviceSched := Snapshot(services);
    }

    method Snapshot(s: OpenRideScheduler) returns (v: Sched)
      ensures v == s.View()
    {
      v := Sched(s.time, Roster(s.collection, s.stash), Naps(s.sleepingUntil, s.wakeTopics),
                 Barrier(s.expected, s.responded, s.outstanding, s.reactions, s.didStepCount, s.shutdownReplied,
                         s.errorReplied, s.bootingCount, s.sleepingCount), s.timeouts);
    }

    method TestStop(i: StepInput, step: nat) returns (stop: bool)
      requires Valid()
      modifies agents, services
      ensures View() == AtStopTest(old(View()), i)
      ensures stop == ShouldTerminate(rule, step, Both(View()), source.IsExhausted())
    {
      Hear(agents, i.agent.late);
      Hear(services, i.service.late);
      var a, s := Observe();
      var done := source.IsExhausted();
      stop := ShouldTerminate(rule, step, map[AgentKey := a, ServiceKey := s], done);
    }

    /** Spawning, and the final-step test, which sees what was just spawned. */
    method Launch(i: StepInput, step: nat) returns (isFinal: bool)
      requires Valid() && source.Valid()
      modifies agents, services, source`currentStep, source`backlog
      ensures source.Valid() && source.currentStep == step
      ensures var due := Spawner.DueAt(source.items, step);
              var queue := old(source.backlog) + Spawner.Orders(due, source.orderRole);
              && source.backlog == Spawner.Drop(queue, source.cap)
              && View()
              == State(AfterReplies(Spawn(old(agents.View()), Spawner.Others(due, source.orderRole)
                                                              + Spawner.Take(queue, source.cap)), i.agent.mid),
                       AfterReplies(old(services.View()), i.service.mid))
      ensures isFinal == IsFinalStep(rule, step, Both(View()), source.IsExhausted())
    {
      var items := source.AgentsForStep(step);
      SpawnAgents(items);
      Hear(agents, i.agent.mid);
      Hear(services, i.service.mid);
      var a, s := Observe();
      var done := source.IsExhausted();
      isFinal := IsFinalStep(rule, step, map[AgentKey := a, ServiceKey := s], done);
    }

    method StepBoth(i: StepInput, isFinal: bool) returns (raised: bool)
      requires Valid()
      modifies agents, services
      ensures !raised ==> Steps(old(agents.View()), agents.View(), i.agent, isFinal, cfg)
      ensures !raised ==> Steps(old(services.View()), services.View(), i.service, isFinal, cfg)
      ensures raised
         <==> StepAborts(AfterReplies(old(agents.View()), i.agent.early), i.agent.replies, i.agent.timedOut, cfg)
              || StepAborts(AfterReplies(old(services.View()), i.service.early), i.service.replies,
                            i.service.timedOut, cfg)
    {
      var first := StepOne(agents, i.agent, isFinal);
      ghost var between := services.View();
      assert between == old(services.View());
      var second := StepOne(services, i.service, isFinal);
      raised := first || second;
    }

    /** The source has made exactly the calls for steps 0 .. step - 1. */
    ghost predicate InStep(p: Spawner.Plan, step: nat)
      reads source
    {
      && source.Valid() && p == Spawner.Plan(source.items, source.cap, source.orderRole)
      && source.backlog == Spawner.Backlog(p, step) && source.currentStep == step - 1
    }

    /** One turn of the loop after the stop test. */
    method Turn(i: StepInput, step: nat, ghost st: State) returns (raised: bool)
      requires Valid() && InStep(TheSetup().plan, step) && View() == AtStopTest(st, i)
      modifies agents, services, source`currentStep, source`backlog
      ensures TheSetup() == old(TheSetup()) && InStep(TheSetup().plan, step + 1)
      ensures raised <==> Aborts(TheSetup(), step, st, i)
      ensures !raised ==> Next(TheSetup(), step, st, View(), i)
    {
      ghost var u := TheSetup();
      var isFinal := Launch(i, step);
      assert View() == AtFinalTest(u.plan, step, st, i);
      assert isFinal == Final(u, step, st, i);
      raised := StepBoth(i, isFinal);
    }

    /** The loop head, before step `step`. */
    ghost predicate At(u: Setup, step: nat, st: State)
      reads source, agents, services
    {
      TheSetup() == u && InStep(u.plan, step) && View() == st
    }

    /** The stop test, and if it fails one turn. */
    method Iterate(i: StepInput, step: nat, last: bool, ghost u: Setup, ghost st: State)
      returns (outcome: Outcome, ghost next: State)
      requires Valid() && At(u, step, st)
      modifies agents, services, source`currentStep, source`backlog
      ensures TheSetup() == u
      ensures outcome == Stopped <==> Stops(u, step, st, i)
      ensures outcome == StillRunning && !last ==> At(u, step + 1, next) && Next(u, step, st, next, i)
      ensures outcome == Raised ==> Aborts(u, step, st, i)
    {
      next := st;
      var stop := TestStop(i, step);
      assert stop == Stops(u, step, st, i);
      if stop {
        return Stopped, st;
      }
      if last {
        return StillRunning, st;
      }
      var raised := Turn(i, step, st);
      outcome := if raised then Raised else StillRunning;
      next := View();
    }

    /** At most `limit` turns of the loop.  `trace` records the states at the loop head. */
    method RunSimulation(env: nat -> StepInput, limit: nat, ghost u: Setup)
      returns (outcome: Outcome, step: nat, ghost trace: seq<State>, ghost last: State)
      requires Valid() && TheSetup() == u && InStep(u.plan, 0)
      modifies agents, services, source`currentStep, source`backlog
      ensures TheSetup() == u && step <= limit && RunTo(u, env, trace, step, old(View()), last)
      ensures outcome == Stopped <==> Stops(u, step, last, env(step))
      ensures outcome == Raised ==> Aborts(u, step, last, env(step))
      ensures outcome == StillRunning ==> step == limit
    {
      step := 0;
      ghost var first, st := View(), View();
      trace := [st];
      outcome := StillRunning;
      while true
        invariant At(u, step, st)
        invariant step <= limit
        invariant RunTo(u, env, trace, step, first, st)
        decreases limit - step
      {
        ghost var next;
        outcome, next := Iterate(env(step), step, step == limit, u, st);
        if outcome != StillRunning || step == limit {
          return outcome, step, trace, st;
        }
        RunGrows(u, env, trace, step, first, st, next);
        st, trace := next, trace + [next];
        step := step + 1;
      }
    }
  }
}
