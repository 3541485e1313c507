/** A live agent answers a step at most once, and only an agent that has left says so.  From this
    follows exactly when a napping agent is pruned. */
module ProtocolOnce {
  import opened Options
  import opened Scheduler
  import opened SchedulerFacts
  import opened Agent
  import opened Protocol
  import opened ProtocolInvariant
  import opened ProtocolTheorems

  // ---------------------------------------------------------------- one answer per step

  /** A message of step `t` still to be heard, a reply to it still to be handled, a reply handled. */
  predicate Hears(m: Member, t: int) {
    exists i :: 0 <= i < |m.inbox| && StepOf(m.inbox[i]) == t
  }

  predicate Replies(m: Member, t: int) {
    exists i :: 0 <= i < |m.outbox| && m.outbox[i].step == t
  }

  /** What is in the inbox for step `t`: one broadcast, or only stops. */
  ghost predicate OneMessage(m: Member, t: int) {
    forall i, j :: 0 <= i < j < |m.inbox| && StepOf(m.inbox[i]) == t && StepOf(m.inbox[j]) == t ==>
      Stops(m.inbox[i])
  }

  ghost predicate OneReply(m: Member, t: int) {
    forall i, j :: 0 <= i < j < |m.outbox| && m.outbox[i].step == t ==> m.outbox[j].step != t
  }

  /** At most one of the three, for an agent that is up; a shutdown reply comes from one that is down. */
  ghost predicate OnceOk(m: Member, t: int, answered: bool) {
    && (!m.state.down ==> (Hears(m, t) ==> !Replies(m, t) && !answered))
    && (!m.state.down ==> (Replies(m, t) ==> !answered))
    && OneMessage(m, t)
    && (!m.state.down ==> OneReply(m, t))
    && (forall i :: 0 <= i < |m.outbox| && m.outbox[i].action == Shutdown ==> m.state.down)
  }

  /** A handled shutdown reply came from an agent that is down. */
  ghost predicate QuitOk(s: Sys, a: AgentId)
    requires a in s.members
  {
    forall r :: r in s.handled && r.agent == a && r.action == Shutdown ==> s.members[a].state.down
  }

  ghost predicate Once(s: Sys) {
    forall a :: a in s.members ==>
      OnceOk(s.members[a], s.sched.time, Answered(s.handled, a, s.sched.time)) && QuitOk(s, a)
  }

  lemma HeardOnce(m: Member, t: int, answered: bool, wake: bool, turn: Turn, ok: bool)
    requires OnceOk(m, t, answered) && m.inbox != []
    requires turn.Crashed? ==> turn.reported <= StepOf(m.inbox[0]) && StepOf(m.inbox[0]) <= t
    ensures OnceOk(Heard(m, wake, turn, ok), t, answered)
  {
  }

  /** Replacing one member keeps the rest. */
  lemma MemberOnce(s: Sys, a: AgentId, m: Member)
    requires Once(s) && a in s.members
    requires OnceOk(m, s.sched.time, Answered(s.handled, a, s.sched.time))
    requires s.members[a].state.down ==> m.state.down
    ensures Once(s.(members := s.members[a := m]))
  {
    var t := s.(members := s.members[a := m]);
    forall b | b in t.members
      ensures OnceOk(t.members[b], t.sched.time, Answered(t.handled, b, t.sched.time)) && QuitOk(t, b)
    {
      assert QuitOk(s, b);
    }
  }

  lemma HearOnce(s: Sys, a: AgentId, wake: bool, turn: Turn, ok: bool)
    requires Inv(s) && Once(s) && Enabled(s, Hear(a, wake, turn, ok))
    ensures Once(Apply(s, Hear(a, wake, turn, ok)))
  {
    var m := s.members[a];
    assert m.inbox[0] in m.inbox;
    HeardOnce(m, s.sched.time, Answered(s.handled, a, s.sched.time), wake, turn, ok);
    StaysDown(m, wake, turn, ok);
    MemberOnce(s, a, Heard(m, wake, turn, ok));
  }

  lemma StaysDown(m: Member, wake: bool, turn: Turn, ok: bool)
    requires m.inbox != []
    ensures m.state.down ==> Heard(m, wake, turn, ok).state.down
  {
  }

  lemma LoseOnce(s: Sys, a: AgentId)
    requires Once(s) && Enabled(s, Lose(a))
    ensures Once(Apply(s, Lose(a)))
  {
    var m := s.members[a];
    var n := m.(inbox := m.inbox[1..]);
    assert forall i :: 0 <= i < |n.inbox| ==> n.inbox[i] == m.inbox[i + 1];
    MemberOnce(s, a, n);
  }

  /** The reply leaves the outbox and becomes a handled one. */
  lemma ReceiveOnce(s: Sys, a: AgentId)
    requires Inv(s) && Once(s) && Enabled(s, Receive(a))
    ensures Once(AfterReceive(s, a))
  {
    var t := AfterReceive(s, a);
    var m, r, time := s.members[a], s.members[a].outbox[0], s.sched.time;
    assert r in m.outbox && r.agent == a;
    forall b | b in t.members
      ensures OnceOk(t.members[b], time, Answered(t.handled, b, time)) && QuitOk(t, b)
    {
      SnocAnswers(s.handled, r, b, time);
      assert QuitOk(s, b);
      if b == a {
        ReceivedOnce(m, time, Answered(s.handled, a, time));
      }
    }
  }

  lemma ReceivedOnce(m: Member, t: int, answered: bool)
    requires OnceOk(m, t, answered) && m.outbox != []
    ensures OnceOk(m.(outbox := m.outbox[1..]), t, answered || m.outbox[0].step == t)
  {
    var n := m.(outbox := m.outbox[1..]);
    assert forall i :: 0 <= i < |n.outbox| ==> n.outbox[i] == m.outbox[i + 1];
  }

  /** Before its broadcast nothing in flight is for the step. */
  lemma PublishOnce(s: Sys)
    requires Inv(s) && Once(s) && s.phase.Resetting? && s.phase.k == RESETS
    ensures Once(AfterPublish(s))
  {
    var t := AfterPublish(s);
    forall a | a in t.members
      ensures OnceOk(t.members[a], t.sched.time, Answered(t.handled, a, t.sched.time)) && QuitOk(t, a)
    {
      assert QuitOk(s, a) && InFlightOk(s.members[a], a, s.published);
      assert !Answered(s.handled, a, s.sched.time);
      PostedOnce(s.members[a], a, s.published, s.sched.time, s.phase.final, a in s.sched.naps.topics);
    }
  }

  lemma PostedOnce(m: Member, a: AgentId, published: int, time: int, final: bool, notified: bool)
    requires InFlightOk(m, a, published) && published < time && OnceOk(m, time, false)
    ensures OnceOk(Posted(m, time, final, notified), time, false)
  {
    var n := Posted(m, time, final, notified);
    assert forall i :: 0 <= i < |m.inbox| ==> n.inbox[i] == m.inbox[i] && m.inbox[i] in m.inbox;
    assert forall i :: 0 <= i < |m.outbox| ==> m.outbox[i] in m.outbox;
  }

  /** Between steps nothing in flight is for the next one. */
  lemma NothingForNext(s: Sys, t: Sys)
    requires Inv(s) && Once(s) && t.members == s.members && t.sched.time > s.published
    requires t.handled == s.handled || t.handled == []
    ensures Once(t)
  {
    forall a | a in t.members
      ensures OnceOk(t.members[a], t.sched.time, Answered(t.handled, a, t.sched.time)) && QuitOk(t, a)
    {
      var m := s.members[a];
      assert QuitOk(s, a) && InFlightOk(m, a, s.published);
      assert OnceOk(m, s.sched.time, Answered(s.handled, a, s.sched.time));
      assert forall i :: 0 <= i < |m.inbox| ==> m.inbox[i] in m.inbox;
      assert forall i :: 0 <= i < |m.outbox| ==> m.outbox[i] in m.outbox;
      assert !Answered(t.handled, a, t.sched.time);
    }
  }

  lemma SpawnOnce(s: Sys, a: AgentId, spec: nat, topic: Option<Topic>, now: real)
    requires Inv(s) && Once(s) && s.phase.Idle? && a !in s.members
    ensures Once(Spawned(s, a, spec, topic, now))
  {
    var t := Spawned(s, a, spec, topic, now);
    forall b | b in t.members
      ensures OnceOk(t.members[b], t.sched.time, Answered(t.handled, b, t.sched.time)) && QuitOk(t, b)
    {
      if b != a {
        assert QuitOk(s, b);
      }
    }
  }

  lemma StateOnce(s: Sys, a: AgentId, b: AgentState)
    requires Once(s) && a in s.members && (s.members[a].state.down ==> b.down)
    ensures Once(s.(members := s.members[a := s.members[a].(state := b)]))
  {
    MemberOnce(s, a, s.members[a].(state := b));
  }

  lemma StepKeepsOnce(s: Sys, e: Event)
    requires Inv(s) && Once(s) && Enabled(s, e)
    ensures Once(Apply(s, e))
  {
    match e
    case Spawn(a, spec, topic, now) => SpawnOnce(s, a, spec, topic, now);
    case Expire(final) => NothingForNext(s, AfterExpire(s, final));
    case Publish => PublishOnce(s);
    case Hear(a, wake, turn, ok) => HearOnce(s, a, wake, turn, ok);
    case Lose(a) => LoseOnce(s, a);
    case AppEvent(a, ok) => StateOnce(s, a, AfterAppEvent(s.members[a].state, ok));
    case Heartbeat(a, now, orphanTimeout, ok) =>
      StateOnce(s, a, AfterHeartbeat(s.members[a].state, now, orphanTimeout, ok));
    case Receive(a) => ReceiveOnce(s, a);
    case Sweep(order) =>
      SweepFacts(s, order);
      SameOnce(s, Apply(s, e));
    case EndStep => NothingForNext(s, Apply(s, EndStep));
    case Scan => SameOnce(s, Apply(s, e));
    case ResetNext => SameOnce(s, Apply(s, e));
  }

  lemma SameOnce(s: Sys, t: Sys)
    requires Once(s) && t.members == s.members && t.handled == s.handled && t.sched.time == s.sched.time
    ensures Once(t)
  {
    forall a | a in t.members
      ensures QuitOk(t, a)
    {
      assert QuitOk(s, a);
    }
  }

  lemma {:induction false} RunOnce(trace: seq<Sys>, events: seq<Event>, i: nat)
    requires Run(trace, events) && i < |trace|
    ensures Once(trace[i])
  {
    if i > 0 {
      RunOnce(trace, events, i - 1);
      RunKeeps(trace, events, i - 1);
      StepKeepsOnce(trace[i - 1], events[i - 1]);
    }
  }

  // ---------------------------------------------------------------- when a napping agent is pruned

  /** Alive, and asleep past this step. */
  predicate Napping(m: Member, time: int) {
    !m.state.down && m.state.sleep.Some? && !Expired(m.state.sleep.value, time)
  }

  /** The sweep takes a napping agent exactly if it was expected and either its answer to this step has
      not been handled yet, or something of its own was in flight when the step began and it has not
      answered since. */
  lemma NappingAgentIsPrunedIff(s: Sys, order: seq<AgentId>, a: AgentId)
    requires Reachable(s) && Enabled(s, Sweep(order))
    requires a in s.members && a in s.sched.roster.collection && Napping(s.members[a], s.sched.time)
    ensures a !in Apply(s, Sweep(order)).sched.roster.collection
       <==> a in s.sched.barrier.expected
            && (Replies(s.members[a], s.sched.time)
                || (a in s.unsettled && !Answered(s.handled, a, s.sched.time)))
  {
    var trace: seq<Sys>, events: seq<Event> :| Run(trace, events) && trace[|events|] == s;
    RunOnce(trace, events, |events|);
    ReachableInv(s);
    WhoLeaves(s, Sweep(order), a);
    assert !Quit(s.handled, a, s.sched.time) by {
      assert QuitOk(s, a);
    }
    if a in s.sched.barrier.expected && !Answered(s.handled, a, s.sched.time) && a !in s.unsettled {
      SettledNapperHasAnswered(s, a);
    }
  }

  lemma SettledNapperHasAnswered(s: Sys, a: AgentId)
    requires Inv(s) && s.phase.Waiting? && a in s.sched.barrier.expected && a !in s.unsettled
    requires !Answered(s.handled, a, s.sched.time)
    requires a in s.members && a in s.sched.roster.collection && Napping(s.members[a], s.sched.time)
    ensures Replies(s.members[a], s.sched.time)
  {
    var m := s.members[a];
    ExactTally(s);
    UnansweredHasNoNap(s, a);
    var last := m.outbox[|m.outbox| - 1];
    assert last in m.outbox && Current(last, s.sched.time);
  }
}
