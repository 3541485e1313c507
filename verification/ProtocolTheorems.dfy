/** What the protocol guarantees in every reachable state: the ledger agrees with the agents, an
    expected agent does not swallow its broadcast, the counters are exact, and who is removed. */
module ProtocolTheorems {
  import opened Options
  import opened Scheduler
  import opened SchedulerFacts
  import opened Agent
  import opened Protocol
  import opened ProtocolInvariant

  // ---------------------------------------------------------------- ledger agreement

  /** The agent was stopped during a nap that is not over yet. */
  predicate StoppedInNap(m: Member, time: int) {
    m.stoppedAsleep && m.state.sleep.Some? && !Expired(m.state.sleep.value, time)
  }

  /** With no reply in flight, ledger and agent agree exactly unless the agent was stopped in a nap
      that is not over; for a live agent always. */
  lemma LedgerAgreement(s: Sys, a: AgentId)
    requires Reachable(s) && a in s.members && a in s.sched.roster.collection && s.members[a].outbox == []
    ensures Agrees(Ledger(s.sched.naps, a), s.members[a].state.sleep, s.sched.time)
       <==> !StoppedInNap(s.members[a], s.sched.time)
    ensures !s.members[a].state.down ==>
              Agrees(Ledger(s.sched.naps, a), s.members[a].state.sleep, s.sched.time)
  {
    ReachableInv(s);
  }

  /** What the history bit says: some earlier event handled a stop while the agent slept. */
  lemma {:induction false} StoppedAsleepMeans(trace: seq<Sys>, events: seq<Event>, i: nat, a: AgentId)
    requires Run(trace, events) && i < |trace| && a in trace[i].members
    ensures trace[i].members[a].stoppedAsleep
       <==> exists j :: 0 <= j < i && StopsSleeper(trace[j], events[j], a)
  {
    if i > 0 {
      if a in trace[i - 1].members {
        StoppedAsleepMeans(trace, events, i - 1, a);
        assert StopsSleeper(trace[i - 1], events[i - 1], a)
          ==> trace[i].members[a].stoppedAsleep;
      } else {
        NotYetMember(trace, events, i - 1, a);
      }
    }
  }

  /** The event makes `a`, which sleeps, handle a stop message or notice. */
  predicate StopsSleeper(s: Sys, e: Event, a: AgentId) {
    && e.Hear? && e.a == a && a in s.members && s.members[a].inbox != []
    && Stops(s.members[a].inbox[0]) && s.members[a].state.sleep.Some?
  }

  lemma {:induction false} NotYetMember(trace: seq<Sys>, events: seq<Event>, i: nat, a: AgentId)
    requires Run(trace, events) && i < |trace| && a !in trace[i].members
    ensures forall j :: 0 <= j <= i ==> a !in trace[j].members
  {
    if i > 0 {
      NotYetMember(trace, events, i - 1, a);
    }
  }

  /** A live agent the scheduler waits for, with nothing of its own in flight when the step began,
      hears the step and answers it, whatever else happens around it. */
  lemma ExpectedAgentAnswers(s: Sys, a: AgentId, wake: bool, turn: Turn, ok: bool)
    requires Reachable(s) && s.phase.Waiting?
    requires a in s.sched.barrier.expected && a !in s.sched.barrier.responded && a !in s.unsettled
    requires a in s.members && !s.members[a].state.down
    requires s.members[a].outbox == [] && s.members[a].inbox != []
    requires TurnFor(turn, StepMsg(s.sched.time))
    ensures Enabled(s, Hear(a, wake, turn, ok))
    ensures var reply := Reaction(s.members[a], wake, turn, ok).1;
            && reply.Some? && reply.value.agent == a
            && (!turn.Crashed? ==> reply.value.step == s.sched.time)
  {
    ReachableInv(s);
    var m := s.members[a];
    assert m.inbox[0] in m.inbox;
    assert StepOf(m.inbox[0]) == s.sched.time;
    UnansweredHasNoNap(s, a);
    assert Agrees(None, m.state.sleep, s.sched.time);
    AwakeAnswers(m, s.sched.time, wake, turn, ok);
  }

  lemma AwakeAnswers(m: Member, time: int, wake: bool, turn: Turn, ok: bool)
    requires m.inbox != [] && StepOf(m.inbox[0]) == time && !m.state.down && TurnFor(turn, StepMsg(time))
    requires Agrees(None, m.state.sleep, time)
    ensures var reply := Reaction(m, wake, turn, ok).1;
            reply.Some? && reply.value.agent == m.state.id && (!turn.Crashed? ==> reply.value.step == time)
  {
  }

  lemma {:induction false} NoNap(handled: seq<Reply>, a: AgentId)
    requires forall r :: r in handled && r.agent == a ==> r.sleepSteps == 0
    ensures LastNap(handled, a).None?
  {
    if handled != [] {
      var n := |handled| - 1;
      assert handled[n] in handled;
      assert forall r :: r in handled[..n] ==> r in handled;
      NoNap(handled[..n], a);
    }
  }

  lemma UnansweredHasNoNap(s: Sys, a: AgentId)
    requires Inv(s) && s.phase.Waiting?
    requires a in s.sched.barrier.expected && a !in s.sched.barrier.responded && a !in s.unsettled
    ensures Ledger(s.sched.naps, a).None?
  {
    ExactTally(s);
    forall r | r in s.handled && r.agent == a
      ensures r.sleepSteps == 0
    {
      assert Current(r, s.sched.time);
    }
    NoNap(s.handled, a);
  }

  // ---------------------------------------------------------------- the counters

  lemma ExactTally(s: Sys)
    requires Inv(s) && Published(s.phase)
    ensures Recounted(s.sched.barrier, s.sched.barrier.expected, s.sched.time, s.handled)
    ensures TallyOk(s.sched.barrier)
  {
    var b := s.sched.barrier;
    TallyIsRecount(Baseline(b.expected, b.bootingCount, b.sleepingCount), s.sched.time, s.handled);
    TallyOkAll(Baseline(b.expected, b.bootingCount, b.sleepingCount), s.sched.time, s.handled);
  }

  /** From the broadcast to the end of the step the lock-free counters are exactly a recount of the
      replies handled since the step began, however stragglers fell between the reset's assignments. */
  lemma BarrierIsExact(s: Sys)
    requires Reachable(s) && Published(s.phase)
    ensures Recounted(s.sched.barrier, s.sched.barrier.expected, s.sched.time, s.handled)
    ensures TallyOk(s.sched.barrier)
    ensures forall r :: r in s.handled ==> r.step <= s.sched.time
  {
    ReachableInv(s);
    ExactTally(s);
  }

  // ---------------------------------------------------------------- removal

  /** Who leaves the collection, by which event: a shutdown reply for this step, silence while
      expected, or a registered sleeper at the end of a final step. */
  lemma WhoLeaves(s: Sys, e: Event, a: AgentId)
    requires Reachable(s) && Enabled(s, e) && a in s.sched.roster.collection
    ensures a !in Apply(s, e).sched.roster.collection <==>
              (e.Sweep? && (Quit(s.handled, a, s.sched.time)
                            || (a in s.sched.barrier.expected && !Answered(s.handled, a, s.sched.time))))
              || (e.EndStep? && s.phase.final && Ledger(s.sched.naps, a).Some?)
    ensures e.Sweep? && a !in Apply(s, e).sched.roster.collection ==> !s.sched.roster.collection[a].pendingBoot
  {
    ReachableInv(s);
    if e.Sweep? {
      VictimsOf(s, a);
      SweepFacts(s, e.order);
    } else if e.Receive? {
      var r := s.members[e.a].outbox[0];
      ReplyRoster(s.sched.roster, r);
    }
  }

  lemma VictimsOf(s: Sys, a: AgentId)
    requires Inv(s) && s.phase.Waiting?
    ensures a in Victims(s.sched.barrier) <==>
              Quit(s.handled, a, s.sched.time)
              || (a in s.sched.barrier.expected && !Answered(s.handled, a, s.sched.time))
    ensures a in Victims(s.sched.barrier) && a in s.sched.roster.collection ==>
              !s.sched.roster.collection[a].pendingBoot
  {
    ExactTally(s);
    if Quit(s.handled, a, s.sched.time) {
      var r :| r in s.handled && r.agent == a && r.step == s.sched.time && r.action == Shutdown;
      assert r.agent in s.sched.roster.collection ==> BootedMember(s.sched.roster, r.agent);
    }
  }

  /** A silent agent about to be pruned has announced a nap exactly when its last reply handled in
      this step did; that reply is for an earlier step, and was in flight when the step began. */
  lemma NappingVictim(s: Sys, a: AgentId)
    requires Reachable(s) && s.phase.Waiting?
    requires a in s.sched.barrier.expected && Silent(s.sched.barrier, a)
    ensures Ledger(s.sched.naps, a).Some? <==> LastNap(s.handled, a).Some?
    ensures Ledger(s.sched.naps, a).Some? ==> a in s.unsettled
    ensures forall r :: r in s.handled && r.agent == a ==> r.step < s.sched.time
  {
    ReachableInv(s);
    ExactTally(s);
    if a !in s.unsettled {
      UnansweredHasNoNap(s, a);
    }
  }

  // ---------------------------------------------------------------- reinstatement

  /** The stash after the sweep: a silent agent's entry is there, unless the bound is reached. */
  lemma {:induction false} ReapStashes(s: Sched, order: seq<AgentId>, a: AgentId)
    requires RosterOk(s.roster) && NoRepeats(order)
    ensures var st := Reap(s, order).roster.stash;
            && (a in order && a in s.roster.collection && Silent(s.barrier, a) ==>
                  Find(st, a) == Some(s.roster.collection[a]) || |st| == PRUNED_STASH_MAX)
            && (Find(s.roster.stash, a).Some? ==>
                  Find(st, a) == Find(s.roster.stash, a) || |st| == PRUNED_STASH_MAX)
            && |st| >= |s.roster.stash|
  {
    if order != [] {
      var n := |order| - 1;
      var t, x := Reap(s, order[..n]), order[n];
      ReapStashes(s, order[..n], a);
      ReapAll(s, order[..n]);
      ElementsGrow(order);
      assert order == order[..n] + [x];
      if x in t.roster.collection && Silent(s.barrier, x) {
        StashOne(t.roster, x, a);
      }
    }
  }

  lemma StashOne(ro: Roster, x: AgentId, a: AgentId)
    requires RosterOk(ro) && x in ro.collection
    ensures var st := StashTrim(StashPut(ro.stash, x, ro.collection[x]));
            && |ro.stash| <= |st| <= PRUNED_STASH_MAX
            && (Find(st, a) == (if a == x then Some(ro.collection[x]) else Find(ro.stash, a))
                || |st| == PRUNED_STASH_MAX)
  {
    var put := StashPut(ro.stash, x, ro.collection[x]);
    PutFacts(ro.stash, x, ro.collection[x], a);
    PutAppends(ro.stash, x, ro.collection[x]);
    TrimFacts(put, a);
    TrimKeepsNewest(put);
  }

  /** A pruned agent is not lost: its entry stays in the stash through every event until a late
      completed or ready reply puts that same entry back, or a full stash evicts it. */
  lemma StashedUntilReinstated(s: Sys, e: Event, a: AgentId)
    requires Reachable(s) && Enabled(s, e)
    ensures Find(s.sched.roster.stash, a).Some? ==>
              var t := Apply(s, e);
              || Find(t.sched.roster.stash, a) == Find(s.sched.roster.stash, a)
              || (e == Receive(a) && Restores(s.members[a].outbox[0])
                  && a in t.sched.roster.collection && Find(t.sched.roster.stash, a).None?
                  && t.sched.roster.collection[a] == Find(s.sched.roster.stash, a).value.(pendingBoot := false))
              || (e.Sweep? && |t.sched.roster.stash| == PRUNED_STASH_MAX)
    ensures e == Receive(a) && Find(s.sched.roster.stash, a).Some? && Restores(s.members[a].outbox[0]) ==>
              a in Apply(s, e).sched.roster.collection
  {
    ReachableInv(s);
    if e.Sweep? {
      EnumeratesElements(e.order, Victims(s.sched.barrier));
      ReapStashes(s.sched, e.order, a);
    } else if e.Receive? {
      var r := s.members[e.a].outbox[0];
      assert r in s.members[e.a].outbox;
      PopFacts(s.sched.roster.stash, r.agent, a);
    }
  }

  /** Every silent victim goes to the stash with its entry, unless the bound is reached. */
  lemma PrunedIsStashed(s: Sys, order: seq<AgentId>, a: AgentId)
    requires Reachable(s) && Enabled(s, Sweep(order))
    requires a in s.sched.roster.collection && Silent(s.sched.barrier, a)
    ensures var st := Apply(s, Sweep(order)).sched.roster.stash;
            Find(st, a) == Some(s.sched.roster.collection[a]) || |st| == PRUNED_STASH_MAX
  {
    ReachableInv(s);
    EnumeratesElements(order, Victims(s.sched.barrier));
    ReapStashes(s.sched, order, a);
  }

  lemma StashDisjoint(s: Sys, a: AgentId)
    requires Reachable(s)
    ensures !(a in s.sched.roster.collection && Find(s.sched.roster.stash, a).Some?)
    ensures |s.sched.roster.stash| <= PRUNED_STASH_MAX
  {
    ReachableInv(s);
  }

  // ---------------------------------------------------------------- how many are pruned

  lemma SilentShrinks(s: Sys, e: Event)
    requires Inv(s) && s.phase.Waiting? && Enabled(s, e) && !e.Sweep?
    ensures var t := Apply(s, e);
            && t.phase == s.phase && t.sched.barrier.expected == s.sched.barrier.expected
            && NonResponders(t.sched.barrier) <= NonResponders(s.sched.barrier)
  {
    if e.Receive? {
      TallyFields(s.sched.barrier, s.sched.time, s.members[e.a].outbox[0]);
    }
  }

  lemma {:induction false} SilentShrinksAlong(trace: seq<Sys>, events: seq<Event>, i: nat, j: nat)
    requires Run(trace, events) && i <= j < |trace| && trace[i].phase.Waiting?
    requires forall k :: i <= k < j ==> !events[k].Sweep?
    ensures trace[j].phase.Waiting?
    ensures NonResponders(trace[j].sched.barrier) <= NonResponders(trace[i].sched.barrier)
  {
    if i < j {
      SilentShrinksAlong(trace, events, i, j - 1);
      RunKeeps(trace, events, j - 1);
      SilentShrinks(trace[j - 1], events[j - 1]);
    }
  }

  lemma SubsetSize(xs: set<AgentId>, ys: set<AgentId>)
    requires xs <= ys
    ensures |xs| <= |ys|
  {
    assert ys == xs + (ys - xs);
  }

  /** If the wait ended at state `i` by its own rule, then whatever still arrives before the sweep at
      `j`, at most a tolerated fraction of the agents counted at the wait's start is pruned. */
  lemma PrunesWithinTolerance(trace: seq<Sys>, events: seq<Event>, i: nat, j: nat, total: nat, tolerance: real)
    requires Run(trace, events) && i <= j < |trace| && trace[i].phase.Waiting?
    requires forall k :: i <= k < j ==> !events[k].Sweep?
    requires Done(trace[i].sched.barrier.outstanding, total, tolerance, true)
    ensures var silent := |NonResponders(trace[j].sched.barrier)|;
            silent == 0 || silent as real <= tolerance * total as real
  {
    var b := trace[i].sched.barrier;
    TallyHolds(trace, events, i);
    SilentCount(b);
    SilentShrinksAlong(trace, events, i, j);
    SubsetSize(NonResponders(trace[j].sched.barrier), NonResponders(b));
    FewSilent(b.outstanding, |NonResponders(trace[j].sched.barrier)|, total, tolerance);
  }

  lemma FewSilent(outstanding: int, silent: nat, total: nat, tolerance: real)
    requires Done(outstanding, total, tolerance, true) && silent <= outstanding
    ensures silent == 0 || silent as real <= tolerance * total as real
  {
    if outstanding > 0 {
      DivideOut(outstanding as real, total as real, tolerance);
    }
  }

  lemma TallyHolds(trace: seq<Sys>, events: seq<Event>, i: nat)
    requires Run(trace, events) && i < |trace| && trace[i].phase.Waiting?
    ensures TallyOk(trace[i].sched.barrier)
  {
    RunKeeps(trace, events, i);
    ExactTally(trace[i]);
  }

  lemma SilentCount(b: Barrier)
    requires TallyOk(b)
    ensures |NonResponders(b)| == b.outstanding
  {
    assert b.expected == NonResponders(b) + b.responded;
    assert |b.expected| == |NonResponders(b)| + |b.responded|;
  }

  lemma DivideOut(x: real, y: real, t: real)
    requires y > 0.0 && x / y <= t
    ensures x <= t * y
  {
    assert x == (x / y) * y;
  }
}
