/** Every event keeps the protocol's invariant, hence it holds in every run. */
module ProtocolInvariant {
  import opened Options
  import opened Scheduler
  import opened SchedulerFacts
  import opened Agent
  import opened Protocol

  // ---------------------------------------------------------------- scheduler-side events

  lemma SpawnKeeps(s: Sys, a: AgentId, spec: nat, topic: Option<Topic>, now: real)
    requires Inv(s) && s.phase.Idle? && a !in s.members
    ensures Inv(Spawned(s, a, spec, topic, now))
  {
    var t := Spawned(s, a, spec, topic, now);
    assert a !in s.sched.naps.until;
    assert Find(s.sched.roster.stash, a).None?;
    assert RosterOk(t.sched.roster);
  }

  lemma ExpireKeeps(s: Sys, final: bool)
    requires Inv(s) && s.phase.Idle?
    ensures Inv(AfterExpire(s, final))
  {
  }

  lemma ScanKeeps(s: Sys)
    requires Inv(s) && s.phase.Scanning?
    ensures Inv(AfterScan(s))
  {
  }

  lemma ResetNextKeeps(s: Sys)
    requires Inv(s) && s.phase.Resetting? && s.phase.k < RESETS
    ensures Inv(AfterResetNext(s))
  {
    var t := AfterResetNext(s);
    assert PartlyReset(t.sched.barrier, t.phase.k, t.phase.base);
    assert MembersOk(t) by {
      forall a | a in t.members
        ensures InFlightOk(t.members[a], a, t.published)
        ensures LedgerOk(t.members[a], Ledger(t.sched.naps, a), a in t.sched.roster.collection, t.sched.time)
        ensures a !in t.unsettled ==> SettledOk(t.members[a], t.sched.time, t.published)
      {
        assert a in s.members;
      }
    }
  }

  lemma PublishKeepsMembers(s: Sys)
    requires Inv(s) && s.phase.Resetting? && s.phase.k == RESETS
    ensures MembersOk(AfterPublish(s))
  {
    var t := AfterPublish(s);
    assert t.members.Keys == s.members.Keys;
    forall a | a in t.members
      ensures InFlightOk(t.members[a], a, t.published)
      ensures LedgerOk(t.members[a], Ledger(t.sched.naps, a), a in t.sched.roster.collection, t.sched.time)
      ensures a !in t.unsettled ==> SettledOk(t.members[a], t.sched.time, t.published)
    {
      assert a in s.members;
    }
  }

  lemma PublishKeepsHistory(s: Sys)
    requires Inv(s) && s.phase.Resetting? && s.phase.k == RESETS
    ensures HistoryOk(AfterPublish(s))
  {
    assert AfterPublish(s).members.Keys == s.members.Keys;
  }

  lemma PublishKeeps(s: Sys)
    requires Inv(s) && s.phase.Resetting? && s.phase.k == RESETS
    ensures Inv(AfterPublish(s))
  {
    PublishKeepsMembers(s);
    PublishKeepsHistory(s);
    assert s.sched.barrier == Reset(s.phase.base);
    StragglersIgnored(s.sched.barrier, s.sched.time, s.handled);
    assert AfterPublish(s).members.Keys == s.members.Keys;
  }

  // ---------------------------------------------------------------- a reply is handled

  lemma LastNapSnoc(handled: seq<Reply>, r: Reply, a: AgentId)
    ensures LastNap(handled + [r], a) == if r.agent == a then WakeOf(r) else LastNap(handled, a)
  {
    assert (handled + [r])[..|handled|] == handled;
  }

  lemma NapLedger(naps: Naps, r: Reply, a: AgentId)
    ensures Ledger(NoteNap(naps, r), a) == if r.agent == a then WakeOf(r) else Ledger(naps, a)
  {
  }

  lemma ReceiveKeepsMembers(s: Sys, a: AgentId)
    requires Inv(s) && a in s.members && s.members[a].outbox != []
    ensures MembersOk(AfterReceive(s, a))
  {
    var t := AfterReceive(s, a);
    var r := s.members[a].outbox[0];
    assert r in s.members[a].outbox;
    ReplyRoster(s.sched.roster, r);
    forall b | b in t.members
      ensures InFlightOk(t.members[b], b, t.published)
      ensures LedgerOk(t.members[b], Ledger(t.sched.naps, b), b in t.sched.roster.collection, t.sched.time)
      ensures !t.phase.Idle? && b !in t.unsettled ==> SettledOk(t.members[b], t.sched.time, t.published)
    {
      NapLedger(s.sched.naps, r, b);
      assert b in s.members;
    }
  }

  lemma ReceiveKeepsIds(s: Sys, a: AgentId)
    requires Inv(s) && a in s.members && s.members[a].outbox != []
    ensures IdsOk(AfterReceive(s, a))
  {
    var t := AfterReceive(s, a);
    var r := s.members[a].outbox[0];
    assert r in s.members[a].outbox;
    ReplyRoster(s.sched.roster, r);
    assert t.members.Keys == s.members.Keys;
    forall b | Find(t.sched.roster.stash, b).Some?
      ensures b in t.members
    {
      if b != r.agent {
        assert Find(s.sched.roster.stash, b).Some?;
      }
    }
  }

  lemma TrailSnoc(b: Barrier, time: int, handled: seq<Reply>, r: Reply)
    requires b == TallyAll(Opening(b), time, handled)
    ensures var c := Tally(b, time, r);
            c == TallyAll(Opening(c), time, handled + [r])
  {
    TallyFields(b, time, r);
    TallySnoc(Opening(b), time, handled, r);
  }

  lemma ReceiveKeepsBarrier(s: Sys, a: AgentId)
    requires Inv(s) && a in s.members && s.members[a].outbox != []
    ensures BarrierOk(AfterReceive(s, a))
  {
    var r := s.members[a].outbox[0];
    assert r in s.members[a].outbox;
    if Published(s.phase) {
      TrailSnoc(s.sched.barrier, s.sched.time, s.handled, r);
    } else {
      TallyFields(s.sched.barrier, s.sched.time, r);
    }
  }

  lemma ReceiveKeepsTrail(s: Sys, a: AgentId)
    requires Inv(s) && a in s.members && s.members[a].outbox != []
    ensures var t := AfterReceive(s, a);
            && (forall r :: r in t.handled ==> r.agent in t.members && r.step <= t.published)
            && (!t.phase.Idle? ==> forall r :: r in t.handled && r.agent !in t.unsettled ==> Current(r, t.sched.time))
            && (t.phase.Scanning? ==> forall b :: b !in t.phase.asleep ==>
                  Ledger(t.sched.naps, b) == LastNap(t.handled, b))
            && (forall b :: b in Awaited(t) ==> Ledger(t.sched.naps, b) == LastNap(t.handled, b))
  {
    var t := AfterReceive(s, a);
    var r := s.members[a].outbox[0];
    assert r in s.members[a].outbox;
    TallyFields(s.sched.barrier, s.sched.time, r);
    assert Awaited(t) == Awaited(s);
    forall b
      ensures Ledger(s.sched.naps, b) == LastNap(s.handled, b) ==> Ledger(t.sched.naps, b) == LastNap(t.handled, b)
    {
      LastNapSnoc(s.handled, r, b);
      NapLedger(s.sched.naps, r, b);
    }
  }

  lemma ReceiveKeepsBooted(s: Sys, a: AgentId)
    requires Inv(s) && a in s.members && s.members[a].outbox != []
    ensures var t := AfterReceive(s, a);
            && (!t.phase.Idle? ==> forall r :: r in t.handled && r.agent in t.sched.roster.collection ==>
                  BootedMember(t.sched.roster, r.agent))
            && (forall b :: b in Awaited(t) ==> BootedMember(t.sched.roster, b))
  {
    var t := AfterReceive(s, a);
    var r := s.members[a].outbox[0];
    assert r in s.members[a].outbox;
    ReplyRoster(s.sched.roster, r);
    TallyFields(s.sched.barrier, s.sched.time, r);
    assert Awaited(t) == Awaited(s);
  }

  lemma ReceiveKeeps(s: Sys, a: AgentId)
    requires Inv(s) && a in s.members && s.members[a].outbox != []
    ensures Inv(AfterReceive(s, a))
  {
    ReceiveKeepsMembers(s, a);
    ReceiveKeepsIds(s, a);
    ReceiveKeepsBarrier(s, a);
    ReceiveKeepsTrail(s, a);
    ReceiveKeepsBooted(s, a);
  }

  // ---------------------------------------------------------------- an agent acts

  ghost predicate MemberFits(s: Sys, a: AgentId, m: Member) {
    && InFlightOk(m, a, s.published)
    && LedgerOk(m, Ledger(s.sched.naps, a), a in s.sched.roster.collection, s.sched.time)
    && (!s.phase.Idle? && a !in s.unsettled ==> SettledOk(m, s.sched.time, s.published))
  }

  /** What is said of the scheduler does not depend on what a member looks like. */
  lemma SchedulerSideKeeps(s: Sys, t: Sys)
    requires IdsOk(s) && BarrierOk(s) && HistoryOk(s)
    requires t.members.Keys == s.members.Keys && t == s.(members := t.members)
    ensures IdsOk(t) && BarrierOk(t) && HistoryOk(t)
  {
    assert Awaited(t) == Awaited(s);
  }

  /** Replacing one member, and nothing else, keeps the invariant if the member is still right. */
  lemma MemberKeeps(s: Sys, a: AgentId, m: Member)
    requires Inv(s) && a in s.members && MemberFits(s, a, m)
    ensures Inv(s.(members := s.members[a := m]))
  {
    var t := s.(members := s.members[a := m]);
    assert t.members.Keys == s.members.Keys;
    SchedulerSideKeeps(s, t);
  }

  lemma ReactionFacts(m: Member, wake: bool, turn: Turn, ok: bool)
    requires m.inbox != []
    requires m.inbox[0].Broadcast? ==> m.state.subscribed
    requires turn.Crashed? ==> turn.reported <= StepOf(m.inbox[0])
    requires !m.state.down && m.state.sleep != Some(Forever) ==> m.state.subscribed
    ensures var (b, r) := Reaction(m, wake, turn, ok);
            && b.id == m.state.id
            && (!b.down && b.sleep != Some(Forever) ==> b.subscribed)
            && (r.None? ==> b.sleep == m.state.sleep && b.down == m.state.down)
            && (r.Some? ==> r.value.agent == m.state.id && r.value.step <= StepOf(m.inbox[0])
                            && WakeOf(r.value) == (if Stops(m.inbox[0]) then None else b.sleep))
            && (Stops(m.inbox[0]) ==> r.Some? && b.down && b.sleep == m.state.sleep)
            && (m.state.down ==> b.down && b.sleep == m.state.sleep && (r.Some? ==> Stops(m.inbox[0])))
            && (r.Some? ==> Current(r.value, StepOf(m.inbox[0])))
  {
  }

  lemma HearKeeps(s: Sys, a: AgentId, wake: bool, turn: Turn, ok: bool)
    requires Inv(s) && Enabled(s, Hear(a, wake, turn, ok))
    ensures Inv(Apply(s, Hear(a, wake, turn, ok)))
  {
    HeardFits(s, a, wake, turn, ok);
    MemberKeeps(s, a, Heard(s.members[a], wake, turn, ok));
  }

  /** The next delivery can be heard. */
  predicate CanHear(m: Member, turn: Turn) {
    && m.inbox != [] && (m.inbox[0].Broadcast? ==> m.state.subscribed)
    && (turn.Crashed? ==> turn.reported <= StepOf(m.inbox[0]))
    && (!m.state.down && m.state.sleep != Some(Forever) ==> m.state.subscribed)
  }

  lemma HeardInFlight(m: Member, a: AgentId, published: int, wake: bool, turn: Turn, ok: bool)
    requires CanHear(m, turn) && InFlightOk(m, a, published)
    ensures InFlightOk(Heard(m, wake, turn, ok), a, published)
  {
    assert m.inbox[0] in m.inbox;
    ReactionFacts(m, wake, turn, ok);
    assert forall d :: d in m.inbox[1..] ==> d in m.inbox;
  }

  lemma HeardSettled(m: Member, time: int, published: int, wake: bool, turn: Turn, ok: bool)
    requires CanHear(m, turn) && SettledOk(m, time, published)
    ensures SettledOk(Heard(m, wake, turn, ok), time, published)
  {
    assert m.inbox[0] in m.inbox;
    ReactionFacts(m, wake, turn, ok);
    assert forall d :: d in m.inbox[1..] ==> d in m.inbox;
  }

  lemma HeardLedger(m: Member, ledger: Option<Wake>, registered: bool, time: int, wake: bool, turn: Turn, ok: bool)
    requires CanHear(m, turn) && LedgerOk(m, ledger, registered, time)
    ensures LedgerOk(Heard(m, wake, turn, ok), ledger, registered, time)
  {
    ReactionFacts(m, wake, turn, ok);
  }

  lemma HeardFits(s: Sys, a: AgentId, wake: bool, turn: Turn, ok: bool)
    requires Inv(s) && Enabled(s, Hear(a, wake, turn, ok))
    ensures MemberFits(s, a, Heard(s.members[a], wake, turn, ok))
  {
    var m := s.members[a];
    HeardInFlight(m, a, s.published, wake, turn, ok);
    if !s.phase.Idle? && a !in s.unsettled {
      HeardSettled(m, s.sched.time, s.published, wake, turn, ok);
    }
    HeardLedger(m, Ledger(s.sched.naps, a), a in s.sched.roster.collection, s.sched.time, wake, turn, ok);
  }

  lemma StateKeeps(s: Sys, a: AgentId, b: AgentState)
    requires Inv(s) && a in s.members
    requires b.id == a && b.sleep == s.members[a].state.sleep
    requires b.subscribed || b == s.members[a].state || (b.down && b.subscribed == s.members[a].state.subscribed)
    requires s.members[a].state.down ==> b.down
    ensures Inv(s.(members := s.members[a := s.members[a].(state := b)]))
  {
    MemberKeeps(s, a, s.members[a].(state := b));
  }

  lemma LoseKeeps(s: Sys, a: AgentId)
    requires Inv(s) && Enabled(s, Lose(a))
    ensures Inv(Apply(s, Lose(a)))
  {
    var m := s.members[a];
    assert forall d :: d in m.inbox[1..] ==> d in m.inbox;
    MemberKeeps(s, a, m.(inbox := m.inbox[1..]));
  }

  // ---------------------------------------------------------------- the end of the step

  lemma SweepFacts(s: Sys, order: seq<AgentId>)
    requires Inv(s) && Enabled(s, Sweep(order))
    ensures var r := Reap(s.sched, order);
            && RosterOk(r.roster)
            && r.roster.collection == s.sched.roster.collection - Victims(s.sched.barrier)
            && (forall a :: Find(r.roster.stash, a).Some? ==>
                  Find(s.sched.roster.stash, a).Some? || a in s.sched.roster.collection)
            && r.barrier == s.sched.barrier && r.time == s.sched.time
            && (forall a :: Ledger(r.naps, a)
                  == if a in Victims(s.sched.barrier) && a in s.sched.roster.collection then None
                     else Ledger(s.sched.naps, a))
            && r.naps.topics.Keys <= s.sched.naps.topics.Keys
  {
    EnumeratesElements(order, Victims(s.sched.barrier));
    ReapAll(s.sched, order);
    ReapLedger(s.sched, order, 0);
    forall a
      ensures Ledger(Reap(s.sched, order).naps, a)
           == if a in Victims(s.sched.barrier) && a in s.sched.roster.collection then None
              else Ledger(s.sched.naps, a)
    {
      ReapLedger(s.sched, order, a);
    }
  }

  lemma SweepKeepsIds(s: Sys, order: seq<AgentId>)
    requires Inv(s) && Enabled(s, Sweep(order))
    ensures IdsOk(Apply(s, Sweep(order)))
  {
    var t := Apply(s, Sweep(order));
    SweepFacts(s, order);
    forall a | a in t.sched.naps.until
      ensures a in s.members
    {
      assert Ledger(t.sched.naps, a).Some?;
      assert Ledger(s.sched.naps, a).Some?;
    }
  }

  lemma SweepKeepsMembers(s: Sys, order: seq<AgentId>)
    requires Inv(s) && Enabled(s, Sweep(order))
    ensures MembersOk(Apply(s, Sweep(order)))
  {
    SweepFacts(s, order);
  }

  /** The barrier's counters outlive the removal of any agents and naps. */
  lemma RemovalKeepsHistory(s: Sys, ro: Roster, naps: Naps, gone: set<AgentId>)
    requires BarrierOk(s) && HistoryOk(s) && s.phase.Waiting?
    requires ro.collection == s.sched.roster.collection - gone
    ensures var t := s.(sched := s.sched.(roster := ro, naps := naps), phase := Swept(s.phase.final));
            BarrierOk(t) && HistoryOk(t)
  {
  }

  lemma SweepKeepsHistory(s: Sys, order: seq<AgentId>)
    requires Inv(s) && Enabled(s, Sweep(order))
    ensures BarrierOk(Apply(s, Sweep(order))) && HistoryOk(Apply(s, Sweep(order)))
  {
    SweepFacts(s, order);
    var r := Reap(s.sched, order);
    ReapTimeouts(s.sched, order);
    assert r == s.sched.(roster := r.roster, naps := r.naps);
    RemovalKeepsHistory(s, r.roster, r.naps, Victims(s.sched.barrier));
  }

  lemma {:induction false} ReapTimeouts(s: Sched, order: seq<AgentId>)
    ensures Reap(s, order).timeouts == s.timeouts
  {
    if order != [] {
      ReapTimeouts(s, order[..|order| - 1]);
    }
  }

  lemma SweepKeeps(s: Sys, order: seq<AgentId>)
    requires Inv(s) && Enabled(s, Sweep(order))
    ensures Inv(Apply(s, Sweep(order)))
  {
    SweepKeepsIds(s, order);
    SweepKeepsMembers(s, order);
    SweepKeepsHistory(s, order);
  }

  lemma EndStepKeeps(s: Sys)
    requires Inv(s) && s.phase.Swept?
    ensures Inv(Apply(s, EndStep))
  {
    var t := Apply(s, EndStep);
    assert MembersOk(t) by {
      forall a | a in t.members
        ensures InFlightOk(t.members[a], a, t.published)
        ensures LedgerOk(t.members[a], Ledger(t.sched.naps, a), a in t.sched.roster.collection, t.sched.time)
      {
        assert a in s.members;
      }
    }
  }

  // ---------------------------------------------------------------- every run

  lemma StepKeeps(s: Sys, e: Event)
    requires Inv(s) && Enabled(s, e)
    ensures Inv(Apply(s, e))
  {
    match e
    case Spawn(a, spec, topic, now) => SpawnKeeps(s, a, spec, topic, now);
    case Expire(final) => ExpireKeeps(s, final);
    case Scan => ScanKeeps(s);
    case ResetNext => ResetNextKeeps(s);
    case Publish => PublishKeeps(s);
    case Hear(a, wake, turn, ok) => HearKeeps(s, a, wake, turn, ok);
    case Lose(a) => LoseKeeps(s, a);
    case AppEvent(a, ok) => StateKeeps(s, a, AfterAppEvent(s.members[a].state, ok));
    case Heartbeat(a, now, orphanTimeout, ok) =>
      StateKeeps(s, a, AfterHeartbeat(s.members[a].state, now, orphanTimeout, ok));
    case Receive(a) => ReceiveKeeps(s, a);
    case Sweep(order) => SweepKeeps(s, order);
    case EndStep => EndStepKeeps(s);
  }

  lemma StartOk()
    ensures Inv(Start())
  {
  }

  lemma ReachableInv(s: Sys)
    requires Reachable(s)
    ensures Inv(s)
  {
    var trace: seq<Sys>, events: seq<Event> :| Run(trace, events) && trace[|events|] == s;
    RunKeeps(trace, events, |events|);
  }

  lemma {:induction false} RunKeeps(trace: seq<Sys>, events: seq<Event>, i: nat)
    requires Run(trace, events) && i < |trace|
    ensures Inv(trace[i])
  {
    if i == 0 {
      StartOk();
    } else {
      RunKeeps(trace, events, i - 1);
      StepKeeps(trace[i - 1], events[i - 1]);
    }
  }
}
