/** The step barrier as a whole: one scheduler, any number of agents, ordered in-flight replies per
    agent, and no lock spanning the two sides.  An event is one atomic action of one of them; the
    nine assignments of the barrier reset are nine events, so stragglers interleave with each.

    Assumptions: replies of one agent arrive in order and are not lost; a broadcast may be lost, and
    an unsubscribed agent hears none; one reply is handled at a time; the sweep and the scan of the
    collection are atomic with respect to replies; agent ids are never reused; a reply carries a real
    step number. */
module Protocol {
  import opened Options
  import opened Scheduler
  import opened SchedulerFacts
  import opened Agent

  datatype Delivery = Broadcast(msg: Msg) | Notice(step: int)

  function StepOf(d: Delivery): int {
    if d.Broadcast? then d.msg.step else d.step
  }

  /** `stoppedAsleep` is history: the agent has handled a stop message during a nap. */
  datatype Member = Member(state: AgentState, inbox: seq<Delivery>, outbox: seq<Reply>, stoppedAsleep: bool)

  predicate Stops(d: Delivery) {
    d.Notice? || d.msg.StopMsg?
  }

  /** Where the scheduler is within a step.  `asleep` and `base` are the locals of the reset. */
  datatype Phase =
    | Idle
    | Scanning(asleep: set<AgentId>, final: bool)
    | Resetting(k: nat, base: Baseline, final: bool)
    | Waiting(final: bool)
    | Swept(final: bool)

  /** `handled` lists the replies handled since the step began and `unsettled` the agents that had
      something in flight when it began; both are history, read by no operation. */
  datatype Sys = Sys(
    sched: Sched,
    phase: Phase,
    published: int,
    members: map<AgentId, Member>,
    handled: seq<Reply>,
    unsettled: set<AgentId>)

  datatype Event =
    | Spawn(a: AgentId, spec: nat, topic: Option<Topic>, now: real)
    | Expire(final: bool)
    | Scan
    | ResetNext
    | Publish
    | Hear(a: AgentId, wake: bool, turn: Turn, ok: bool)
    | Lose(a: AgentId)
    | AppEvent(a: AgentId, ok: bool)
    | Heartbeat(a: AgentId, now: real, orphanTimeout: real, ok: bool)
    | Receive(a: AgentId)
    | Sweep(order: seq<AgentId>)
    | EndStep

  // ---------------------------------------------------------------- what each event does

  function Spawned(s: Sys, a: AgentId, spec: nat, topic: Option<Topic>, now: real): Sys {
    var ro := s.sched.roster;
    s.(sched := s.sched.(roster := ro.(collection := ro.collection[a := Entry(spec, true)])),
       members := s.members[a := Member(AgentState(a, topic, None, true, false, now), [], [], false)])
  }

  function Busy(members: map<AgentId, Member>): set<AgentId> {
    set a | a in members && (members[a].inbox != [] || members[a].outbox != [])
  }

  function AfterExpire(s: Sys, final: bool): Sys {
    var naps := ExpireNaps(s.sched.naps, s.sched.time);
    s.(sched := s.sched.(naps := naps), phase := Scanning(naps.until.Keys, final),
       handled := [], unsettled := Busy(s.members))
  }

  function AfterScan(s: Sys): Sys
    requires s.phase.Scanning?
  {
    s.(phase := Resetting(0, BaselineOf(s.sched.roster, s.phase.asleep), s.phase.final))
  }

  function AfterResetNext(s: Sys): Sys
    requires s.phase.Resetting?
  {
    s.(sched := s.sched.(barrier := ResetField(s.sched.barrier, s.phase.k, s.phase.base)),
       phase := s.phase.(k := s.phase.k + 1))
  }

  /** Direct notices go first and reach an unsubscribed sleeper; the broadcast does not. */
  function Posted(m: Member, time: int, final: bool, notified: bool): Member {
    var direct := if final && notified then [Notice(time)] else [];
    var cast := if m.state.subscribed then [Broadcast(if final then StopMsg(time) else StepMsg(time))] else [];
    m.(inbox := m.inbox + direct + cast)
  }

  function AfterPublish(s: Sys): Sys
    requires s.phase.Resetting?
  {
    s.(phase := Waiting(s.phase.final), published := s.sched.time,
       members := map a | a in s.members ::
         Posted(s.members[a], s.sched.time, s.phase.final, a in s.sched.naps.topics))
  }

  function Reaction(m: Member, wake: bool, turn: Turn, ok: bool): (AgentState, Option<Reply>)
    requires m.inbox != []
  {
    match m.inbox[0]
    case Broadcast(msg) => React(m.state, msg, wake, turn, ok)
    case Notice(step) => ReactToNotice(m.state, step, turn, ok)
  }

  function Heard(m: Member, wake: bool, turn: Turn, ok: bool): Member
    requires m.inbox != []
  {
    var (state, reply) := Reaction(m, wake, turn, ok);
    Member(state, m.inbox[1..], if reply.Some? then m.outbox + [reply.value] else m.outbox,
           m.stoppedAsleep || (Stops(m.inbox[0]) && m.state.sleep.Some?))
  }

  function AfterReceive(s: Sys, a: AgentId): Sys
    requires a in s.members && s.members[a].outbox != []
  {
    var m := s.members[a];
    s.(sched := AfterReply(s.sched, m.outbox[0]), members := s.members[a := m.(outbox := m.outbox[1..])],
       handled := s.handled + [m.outbox[0]])
  }

  predicate Enabled(s: Sys, e: Event) {
    match e
    case Spawn(a, _, _, _) => s.phase.Idle? && a !in s.members
    case Expire(_) => s.phase.Idle?
    case Scan => s.phase.Scanning?
    case ResetNext => s.phase.Resetting? && s.phase.k < RESETS
    case Publish => s.phase.Resetting? && s.phase.k == RESETS
    case Hear(a, _, turn, _) =>
      && a in s.members && s.members[a].inbox != []
      && (s.members[a].inbox[0].Broadcast? ==> s.members[a].state.subscribed)
      && (turn.Crashed? ==> turn.reported <= StepOf(s.members[a].inbox[0]))
    case Lose(a) => a in s.members && s.members[a].inbox != []
    case AppEvent(a, _) => a in s.members
    case Heartbeat(a, _, _, _) => a in s.members
    case Receive(a) => a in s.members && s.members[a].outbox != []
    case Sweep(order) => s.phase.Waiting? && Enumerates(order, Victims(s.sched.barrier))
    case EndStep => s.phase.Swept?
  }

  function Apply(s: Sys, e: Event): Sys
    requires Enabled(s, e)
  {
    match e
    case Spawn(a, spec, topic, now) => Spawned(s, a, spec, topic, now)
    case Expire(final) => AfterExpire(s, final)
    case Scan => AfterScan(s)
    case ResetNext => AfterResetNext(s)
    case Publish => AfterPublish(s)
    case Hear(a, wake, turn, ok) => s.(members := s.members[a := Heard(s.members[a], wake, turn, ok)])
    case Lose(a) => s.(members := s.members[a := s.members[a].(inbox := s.members[a].inbox[1..])])
    case AppEvent(a, ok) =>
      s.(members := s.members[a := s.members[a].(state := AfterAppEvent(s.members[a].state, ok))])
    case Heartbeat(a, now, orphanTimeout, ok) =>
      s.(members := s.members[a := s.members[a].(state := AfterHeartbeat(s.members[a].state, now, orphanTimeout, ok))])
    case Receive(a) => AfterReceive(s, a)
    case Sweep(order) => s.(sched := Reap(s.sched, order), phase := Swept(s.phase.final))
    case EndStep => s.(sched := Finish(s.sched, s.phase.final), phase := Idle)
  }

  function Start(): Sys {
    Sys(Fresh(0), Idle, -1, map[], [], {})
  }

  // ---------------------------------------------------------------- runs

  ghost predicate Run(trace: seq<Sys>, events: seq<Event>) {
    && |trace| == |events| + 1
    && trace[0] == Start()
    && forall i :: 0 <= i < |events| ==> Enabled(trace[i], events[i]) && trace[i + 1] == Apply(trace[i], events[i])
  }

  ghost predicate Reachable(s: Sys) {
    exists trace: seq<Sys>, events: seq<Event> :: Run(trace, events) && trace[|events|] == s
  }

  // ---------------------------------------------------------------- invariants

  predicate Published(p: Phase) {
    p.Waiting? || p.Swept?
  }

  /** Replies and messages in flight belong to steps already published. */
  ghost predicate InFlightOk(m: Member, a: AgentId, published: int) {
    && m.state.id == a
    && (forall d :: d in m.inbox ==> StepOf(d) <= published)
    && (forall r :: r in m.outbox ==> r.agent == a && r.step <= published)
  }

  /** The ledger holds the agent's nap, or has already dropped one that has expired. */
  predicate Agrees(ledger: Option<Wake>, sleep: Option<Wake>, time: int) {
    ledger == sleep || (ledger.None? && sleep.Some? && Expired(sleep.value, time))
  }

  predicate LedgerOk(m: Member, ledger: Option<Wake>, registered: bool, time: int) {
    && (!m.state.down && m.state.sleep != Some(Forever) ==> m.state.subscribed)
    && (m.stoppedAsleep ==> m.state.down && m.state.sleep.Some?)
    && (if m.outbox != [] then
          WakeOf(m.outbox[|m.outbox| - 1]) == if m.stoppedAsleep then None else m.state.sleep
        else if m.stoppedAsleep then ledger.None?
        else registered ==> Agrees(ledger, m.state.sleep, time))
  }

  predicate Current(r: Reply, time: int) {
    r.step == time || r.sleepSteps == 0
  }

  /** An agent with nothing in flight at the start of the step has only this step's traffic. */
  ghost predicate SettledOk(m: Member, time: int, published: int) {
    if published < time then m.inbox == [] && m.outbox == []
    else (forall d :: d in m.inbox ==> StepOf(d) == time) && (forall r :: r in m.outbox ==> Current(r, time))
  }

  ghost predicate MembersOk(s: Sys) {
    forall a :: a in s.members ==>
      && InFlightOk(s.members[a], a, s.published)
      && LedgerOk(s.members[a], Ledger(s.sched.naps, a), a in s.sched.roster.collection, s.sched.time)
      && (!s.phase.Idle? && a !in s.unsettled ==> SettledOk(s.members[a], s.sched.time, s.published))
  }

  ghost predicate IdsOk(s: Sys) {
    && RosterOk(s.sched.roster)
    && s.sched.roster.collection.Keys <= s.members.Keys
    && s.sched.naps.until.Keys <= s.members.Keys
    && s.sched.naps.topics.Keys <= s.members.Keys
    && (forall a :: Find(s.sched.roster.stash, a).Some? ==> a in s.members)
  }

  /** The barrier as it was when this step's broadcast went out. */
  function Opening(b: Barrier): Barrier {
    Reset(Baseline(b.expected, b.bootingCount, b.sleepingCount))
  }

  predicate PartlyReset(b: Barrier, k: nat, base: Baseline) {
    && (k > 0 ==> b.bootingCount == base.booting)
    && (k > 1 ==> b.sleepingCount == base.sleeping)
    && (k > 2 ==> b.responded == {})
    && (k > 3 ==> b.reactions == map[])
    && (k > 4 ==> b.didStepCount == 0)
    && (k > 5 ==> b.shutdownReplied == {})
    && (k > 6 ==> b.errorReplied == {})
    && (k > 7 ==> b.expected == base.expected)
    && (k > 8 ==> b.outstanding == |base.expected|)
  }

  ghost predicate BarrierOk(s: Sys) {
    && s.published == (if Published(s.phase) then s.sched.time else s.sched.time - 1)
    && (s.phase.Resetting? ==> s.phase.k <= RESETS && PartlyReset(s.sched.barrier, s.phase.k, s.phase.base))
    && (Published(s.phase) ==>
          s.sched.barrier == TallyAll(Opening(s.sched.barrier), s.sched.time, s.handled))
  }

  /** The nap announced by the last handled reply of `a`. */
  function LastNap(handled: seq<Reply>, a: AgentId): Option<Wake> {
    if handled == [] then None
    else
      var n := |handled| - 1;
      if handled[n].agent == a then WakeOf(handled[n]) else LastNap(handled[..n], a)
  }

  predicate BootedMember(ro: Roster, a: AgentId) {
    a in ro.collection && !ro.collection[a].pendingBoot
  }

  /** The agents the scheduler waits for, as far as they are known in this phase. */
  function Awaited(s: Sys): set<AgentId> {
    match s.phase
    case Resetting(_, base, _) => base.expected
    case Waiting(_) => s.sched.barrier.expected
    case _ => {}
  }

  ghost predicate HistoryOk(s: Sys) {
    && (forall r :: r in s.handled ==> r.agent in s.members && r.step <= s.published)
    && (!s.phase.Idle? ==> forall r :: r in s.handled && r.agent !in s.unsettled ==> Current(r, s.sched.time))
    && (!s.phase.Idle? ==> forall r :: r in s.handled && r.agent in s.sched.roster.collection ==>
          BootedMember(s.sched.roster, r.agent))
    && (s.phase.Scanning? ==> forall a :: a !in s.phase.asleep ==>
          Ledger(s.sched.naps, a) == LastNap(s.handled, a))
    && (forall a :: a in Awaited(s) ==>
          BootedMember(s.sched.roster, a) && Ledger(s.sched.naps, a) == LastNap(s.handled, a))
  }

  ghost predicate Inv(s: Sys) {
    MembersOk(s) && IdsOk(s) && BarrierOk(s) && HistoryOk(s)
  }
}
