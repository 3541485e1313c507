/** Concrete runs, each showing that a promise needs the condition the theorems give it. */
module ProtocolRuns {
  import opened Options
  import opened Scheduler
  import opened SchedulerFacts
  import opened Agent
  import opened Protocol
  import opened ProtocolTheorems
  import opened ProtocolOnce

  lemma ReachStep(s: Sys, e: Event)
    requires Reachable(s) && Enabled(s, e)
    ensures Reachable(Apply(s, e))
  {
    var trace: seq<Sys>, events: seq<Event> :| Run(trace, events) && trace[|events|] == s;
    assert Run(trace + [Apply(s, e)], events + [e]);
  }

  lemma ReachStart()
    ensures Reachable(Start())
  {
    assert Run([Start()], []);
  }

  function ResetsDone(s: Sys, k: nat): Sys
    requires s.phase.Resetting?
  {
    s.(sched := s.sched.(barrier := ResetTo(s.sched.barrier, k, s.phase.base)), phase := s.phase.(k := k))
  }

  lemma {:induction false} ReachResets(s: Sys, k: nat)
    requires Reachable(s) && s.phase.Resetting? && s.phase.k == 0 && k <= RESETS
    ensures Reachable(ResetsDone(s, k))
  {
    if k == 0 {
      assert ResetsDone(s, 0) == s;
    } else {
      ReachResets(s, k - 1);
      ReachStep(ResetsDone(s, k - 1), ResetNext);
    }
  }

  /** A step from its beginning to its broadcast, with nothing in between. */
  function Opened(s: Sys, final: bool): Sys {
    var t := AfterScan(AfterExpire(s, final));
    AfterPublish(t.(sched := t.sched.(barrier := Reset(t.phase.base)), phase := t.phase.(k := RESETS)))
  }

  lemma ReachOpened(s: Sys, final: bool)
    requires Reachable(s) && s.phase.Idle?
    ensures Reachable(Opened(s, final))
  {
    ReachStep(s, Expire(final));
    ReachStep(AfterExpire(s, final), Scan);
    var t := AfterScan(AfterExpire(s, final));
    ReachResets(t, RESETS);
    ResetAll(t.sched.barrier, t.phase.base);
    ReachStep(ResetsDone(t, RESETS), Publish);
  }

  function Closed(s: Sys): Sys
    requires s.phase.Waiting?
  {
    s.(sched := Finish(s.sched, s.phase.final), phase := Idle)
  }

  /** The end of a step that has no victims. */
  lemma ReachClosed(s: Sys)
    requires Reachable(s) && s.phase.Waiting? && Victims(s.sched.barrier) == {}
    ensures Reachable(Closed(s))
  {
    ReachStep(s, Sweep([]));
    ReachStep(Apply(s, Sweep([])), EndStep);
  }

  /** Agent 0, if registered, is booting or asleep past this step. */
  predicate NotAwaited(s: Sys) {
    || 0 !in s.sched.roster.collection
    || s.sched.roster.collection[0].pendingBoot
    || (Ledger(s.sched.naps, 0).Some? && !Expired(Ledger(s.sched.naps, 0).value, s.sched.time))
  }

  /** Agent 0 alone, subscribed and up, with nothing in flight. */
  predicate Alone(s: Sys) {
    && s.members.Keys == {0}
    && s.members[0].inbox == [] && s.members[0].outbox == []
    && s.members[0].state.subscribed && !s.members[0].state.down
    && s.members[0].state.id == 0 && s.members[0].state.appTopic == None && s.sched.naps.topics == map[]
  }

  /** What the broadcast of a step finds when agent 0 is alone. */
  lemma OpenedAlone(s: Sys, final: bool)
    requires s.phase.Idle? && Alone(s)
    ensures var o := Opened(s, final);
            && o.phase == Waiting(final) && o.members.Keys == {0} && o.sched.time == s.sched.time
            && o.members[0] == s.members[0].(inbox := [Broadcast(if final then StopMsg(s.sched.time)
                                                                 else StepMsg(s.sched.time))])
            && o.sched.roster == s.sched.roster && o.sched.naps == ExpireNaps(s.sched.naps, s.sched.time)
            && o.sched.barrier.shutdownReplied == {} && o.sched.barrier.responded == {}
            && o.sched.barrier.expected
               == ExpectedSet(s.sched.roster.collection, ExpireNaps(s.sched.naps, s.sched.time).until.Keys)
            && o.unsettled == {}
  {
    assert ExpireNaps(s.sched.naps, s.sched.time).topics == map[];
    assert Busy(s.members) == {};
  }

  /** How agent 0 answers a broadcast it does not swallow. */
  lemma AnswersAwake(m: Member, time: int, final: bool, wake: bool, nap: int)
    requires m.inbox == [Broadcast(if final then StopMsg(time) else StepMsg(time))] && m.outbox == []
    requires !m.state.down && m.state.appTopic == None
    requires m.state.sleep.None? || !Before(time, m.state.sleep.value) || wake || final
    ensures var h := Heard(m, wake, Worked(true, nap), true);
            && h.inbox == []
            && h.outbox == [if final then Reply(m.state.id, time, Shutdown, true, 0, None)
                            else Reply(m.state.id, time, Completed, true, if nap < 0 then -1 else nap, None)]
            && h.state == (if final then m.state.(down := true)
                           else AfterWork(m.state.(sleep := None), time, nap, true))
            && h.stoppedAsleep == (m.stoppedAsleep || (final && m.state.sleep.Some?))
  {
  }

  /** A step in which agent 0, alone and not expected, answers its broadcast. */
  lemma ReachAnswered(s: Sys, final: bool, wake: bool, nap: int) returns (t: Sys)
    requires Reachable(s) && s.phase.Idle? && Alone(s) && NotAwaited(s)
    requires s.members[0].state.sleep == None || wake || final
    requires s.sched.roster.collection.Keys <= {0}
    ensures Reachable(t) && t.phase == Waiting(final) && t.members.Keys == {0} && t.members[0].inbox == []
    ensures t.sched.time == s.sched.time && t.sched.barrier.expected == {}
    ensures t.members[0].outbox == [if final then Reply(0, s.sched.time, Shutdown, true, 0, None)
                                    else Reply(0, s.sched.time, Completed, true, if nap < 0 then -1 else nap, None)]
    ensures t.members[0].state == (if final then s.members[0].state.(down := true)
                                   else AfterWork(s.members[0].state.(sleep := None), s.sched.time, nap, true))
    ensures t.members[0].stoppedAsleep
         == (s.members[0].stoppedAsleep || (final && s.members[0].state.sleep.Some?))
    ensures t.sched.roster == s.sched.roster && t.sched.naps == ExpireNaps(s.sched.naps, s.sched.time)
    ensures t.sched.barrier.shutdownReplied == {} && t.sched.barrier.responded == {}
  {
    ReachOpened(s, final);
    OpenedAlone(s, final);
    var o := Opened(s, final);
    var e := Hear(0, wake, Worked(true, nap), true);
    AnswersAwake(o.members[0], s.sched.time, final, wake, nap);
    ReachStep(o, e);
    t := Apply(o, e);
  }

  /** The one reply of agent 0, who was not expected, is handled and the step ends. */
  lemma ReachHandled(t: Sys, final: bool) returns (s: Sys)
    requires Reachable(t) && t.phase == Waiting(final) && t.members.Keys == {0}
    requires var m := t.members[0]; m.inbox == [] && |m.outbox| == 1 && m.outbox[0].action == Completed
    requires t.sched.barrier.expected == {} && t.sched.barrier.shutdownReplied == {}
    requires t.members[0].outbox[0].agent == 0 && t.members[0].outbox[0].sleepSteps != 0 && !final
    requires Find(t.sched.roster.stash, 0).None?
    ensures Reachable(s) && s.phase.Idle? && s.sched.time == t.sched.time + 1
    ensures s.members == map[0 := Member(t.members[0].state, [], [], t.members[0].stoppedAsleep)]
    ensures s.sched.roster == MarkBooted(t.sched.roster, 0)
    ensures s.sched.naps == NoteNap(t.sched.naps, t.members[0].outbox[0])
  {
    ReachStep(t, Receive(0));
    var u := AfterReceive(t, 0);
    assert u.members[0] == Member(t.members[0].state, [], [], t.members[0].stoppedAsleep);
    assert Victims(u.sched.barrier) == {};
    ReachClosed(u);
    s := Closed(u);
  }

  /** Agent 0 joins, boots at step 0, and naps. */
  lemma ReachFirstNap(nap: int) returns (s: Sys)
    requires nap != 0
    ensures Reachable(s) && s.phase.Idle? && s.sched.time == 1
    ensures s.members
         == map[0 := Member(AfterWork(AgentState(0, None, None, true, false, 0.0), 0, nap, true), [], [], false)]
    ensures s.sched.roster == Roster(map[0 := Entry(0, false)], [])
    ensures s.sched.naps == Naps(map[0 := NapFrom(0, nap).value], map[])
  {
    ReachStart();
    ReachStep(Start(), Spawn(0, 0, None, 0.0));
    var joined := Spawned(Start(), 0, 0, None, 0.0);
    var t := ReachAnswered(joined, false, false, nap);
    assert t.sched.naps == Naps(map[], map[]);
    s := ReachHandled(t, false);
  }

  /** An agent that shuts down during a timed nap still holds the nap its ledger entry has lost. */
  lemma AgreementNeedsALiveAgent() returns (s: Sys)
    ensures Reachable(s) && 0 in s.members && 0 in s.sched.roster.collection && s.members[0].outbox == []
    ensures !Agrees(Ledger(s.sched.naps, 0), s.members[0].state.sleep, s.sched.time)
  {
    var asleep := ReachFirstNap(5);
    var t := ReachAnswered(asleep, true, false, 0);
    ReachStep(t, Receive(0));
    s := AfterReceive(t, 0);
    assert s.members[0].outbox == [];
  }

  /** Agent 0 wakes at step 1 from a nap until step 2, naps again, and its reply stays in flight. */
  lemma ReachNapInFlight() returns (s: Sys)
    ensures Reachable(s) && s.phase.Idle? && s.sched.time == 2 && s.members.Keys == {0}
    ensures s.members[0].inbox == [] && s.members[0].outbox == [Reply(0, 1, Completed, true, 7, None)]
    ensures s.members[0].state == AgentState(0, None, Some(At(8)), true, false, 0.0)
    ensures s.sched.roster == Roster(map[0 := Entry(0, false)], [])
    ensures s.sched.naps == Naps(map[0 := At(2)], map[])
  {
    var asleep := ReachFirstNap(2);
    var t := ReachAnswered(asleep, false, true, 7);
    assert t.sched.naps == Naps(map[0 := At(2)], map[]);
    ReachClosed(t);
    s := Closed(t);
  }

  /** The next step expects agent 0, whose nap from step 1 then arrives. */
  lemma ReachExpectedAsleep() returns (s: Sys)
    ensures Reachable(s) && s.phase == Waiting(false) && s.sched.time == 2 && s.members.Keys == {0}
    ensures s.members[0].state == AgentState(0, None, Some(At(8)), true, false, 0.0)
    ensures s.sched.roster == Roster(map[0 := Entry(0, false)], [])
    ensures s.sched.naps == Naps(map[0 := At(8)], map[])
    ensures s.sched.barrier.expected == {0} && s.sched.barrier.responded == s.sched.barrier.shutdownReplied == {}
  {
    var u := ReachNapInFlight();
    ReachOpened(u, false);
    var o := Opened(u, false);
    assert o.sched.barrier.expected == {0};
    ReachStep(o, Receive(0));
    s := AfterReceive(o, 0);
    assert s.sched.roster.collection == map[0 := Entry(0, false)];
  }

  /** A sleeper that wakes early and naps again, with that reply still in flight when its first nap
      expires, is expected although it sleeps: it swallows the broadcast, and the sweep prunes it
      with its nap in the ledger. */
  lemma NapInFlightIsPruned() returns (s: Sys, order: seq<AgentId>)
    ensures Reachable(s) && 0 in s.members && !s.members[0].state.down
    ensures Swallows(s.members[0].state, StepMsg(s.sched.time), false)
    ensures Ledger(s.sched.naps, 0) == s.members[0].state.sleep == Some(At(8))
    ensures Enabled(s, Sweep(order)) && !s.phase.final
    ensures 0 in s.sched.roster.collection && 0 !in Apply(s, Sweep(order)).sched.roster.collection
  {
    s := ReachExpectedAsleep();
    order := [0];
    assert Victims(s.sched.barrier) == {0};
    assert Reap(s.sched, order) == ReapOne(Reap(s.sched, order[..0]), 0);
  }

  /** Agent 0 answers the step that expects it and naps; the answer is still unhandled. */
  lemma ReachUnhandledNap() returns (s: Sys)
    ensures Reachable(s) && s.phase == Waiting(false) && s.sched.time == 1 && s.members.Keys == {0}
    ensures s.unsettled == {} && s.sched.naps.until == map[] && s.sched.roster.collection.Keys == {0}
    ensures s.members[0].outbox == [Reply(0, 1, Completed, true, 7, None)]
    ensures !s.members[0].state.down && s.members[0].state.sleep == Some(At(8))
    ensures s.sched.barrier.expected == {0} && s.sched.barrier.responded == s.sched.barrier.shutdownReplied == {}
  {
    var rested := ReachFirstNap(1);
    ReachOpened(rested, false);
    OpenedAlone(rested, false);
    var o := Opened(rested, false);
    assert o.sched.naps.until == map[];
    var e := Hear(0, false, Worked(true, 7), true);
    AnswersAwake(o.members[0], 1, false, false, 7);
    ReachStep(o, e);
    s := Apply(o, e);
  }

  /** If the wait ends before that answer is handled, the sweep prunes the napping agent, whose nap the
      ledger does not know yet. */
  lemma UnhandledNapIsPruned() returns (s: Sys, order: seq<AgentId>)
    ensures Reachable(s) && 0 in s.members && Napping(s.members[0], s.sched.time) && 0 !in s.unsettled
    ensures Ledger(s.sched.naps, 0).None?
    ensures Enabled(s, Sweep(order)) && !s.phase.final
    ensures 0 in s.sched.roster.collection && 0 !in Apply(s, Sweep(order)).sched.roster.collection
  {
    s := ReachUnhandledNap();
    order := [0];
    assert Victims(s.sched.barrier) == {0};
    assert s.members[0].outbox[0].step == s.sched.time;
    NappingAgentIsPrunedIff(s, order, 0);
  }

  /** An indefinite sleeper is deregistered at a final step. */
  lemma ReachDropped() returns (s: Sys)
    ensures Reachable(s) && s.phase.Idle? && s.sched.time == 2 && s.members.Keys == {0}
    ensures s.members[0] == Member(AgentState(0, None, Some(Forever), false, false, 0.0), [], [], false)
    ensures s.sched.roster == Roster(map[], []) && s.sched.naps == Naps(map[], map[])
  {
    var asleep := ReachFirstNap(-1);
    ReachOpened(asleep, true);
    var o := Opened(asleep, true);
    assert o.sched.naps == Naps(map[0 := Forever], map[]);
    assert o.sched.barrier.expected == {};
    assert o.members[0].inbox == [];
    ReachClosed(o);
    s := Closed(o);
    assert s.sched.roster.collection == map[] && s.sched.naps == Naps(map[], map[]);
  }

  /** Then an event wakes its subscription. */
  lemma ReachWokenUnregistered() returns (s: Sys)
    ensures Reachable(s) && s.phase.Idle? && s.sched.time == 2 && s.members.Keys == {0}
    ensures s.members[0] == Member(AgentState(0, None, Some(Forever), true, false, 0.0), [], [], false)
    ensures s.sched.roster == Roster(map[], []) && s.sched.naps == Naps(map[], map[])
  {
    var dropped := ReachDropped();
    ReachStep(dropped, AppEvent(0, true));
    s := Apply(dropped, AppEvent(0, true));
  }

  /** The ledger can hold an agent that is not registered, so its size is not the number of
      registered sleepers: here one registered, awake agent is cancelled out by it. */
  lemma GhostSleeper() returns (s: Sys)
    ensures Reachable(s) && s.phase.Idle?
    ensures s.sched.roster.collection.Keys == {1} && s.sched.naps.until.Keys == {0}
  {
    var woken := ReachWokenUnregistered();
    var t := ReachAnswered(woken, false, true, -1);
    assert t.sched.naps == Naps(map[], map[]);
    var v := ReachHandled(t, false);
    ReachStep(v, Spawn(1, 0, None, 0.0));
    s := Spawned(v, 1, 0, None, 0.0);
  }
}
