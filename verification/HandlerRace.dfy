/** The reply handler in four pieces, so that the barrier reset may fall inside it: the bookkeeping up to
    the step test, the test whether the agent is awaited, the record among the responders, and the
    count-down.  One network thread, one event loop; a reply of a step follows that step's reset. */
module HandlerRace {
  import opened Options
  import opened Scheduler
  import opened SchedulerFacts
  import W = Wakeup

  /** The reply in the handler's hands: past the step test, past both tests, or among the responders and
      not counted down. */
  datatype Hand = Empty | Admitted(reply: Reply) | Passed(reply: Reply) | Recorded(reply: Reply)

  /** `caught` is what the handler held at the last reset; `heard` are the replies of this step whose
      handling is complete, in order.  Both are history. */
  datatype Race = Race(sched: Sched, waiting: bool, hand: Hand, caught: Hand, heard: seq<Reply>)

  datatype Event = Begin | Handle(reply: Reply) | Test | Add | CountDown | Close(order: seq<AgentId>, final: bool)

  function Booked(s: Sched, r: Reply): Sched {
    s.(roster := MarkBooted(Reinstate(s.roster, r), r.agent), naps := NoteNap(s.naps, r))
  }

  predicate Awaited(b: Barrier, a: AgentId) {
    a in b.expected && a !in b.responded
  }

  function Added(b: Barrier, r: Reply): Barrier {
    b.(responded := b.responded + {r.agent},
       didStepCount := if r.didStep then b.didStepCount + 1 else b.didStepCount,
       reactions := b.reactions[r.action := Count(b.reactions, r.action) + 1])
  }

  function Heard(w: Race, r: Reply): seq<Reply> {
    if w.waiting && r.step == w.sched.time then w.heard + [r] else w.heard
  }

  predicate Enabled(w: Race, e: Event) {
    match e
    case Begin => !w.waiting
    case Handle(r) => w.hand.Empty? && (if w.waiting then r.step <= w.sched.time else r.step < w.sched.time)
    case Test => w.hand.Admitted?
    case Add => w.hand.Passed?
    case CountDown => w.hand.Recorded?
    case Close(order, _) => w.waiting && Enumerates(order, Victims(w.sched.barrier))
  }

  function Apply(w: Race, e: Event): Race
    requires Enabled(w, e)
  {
    match e
    case Begin => Race(BeginBarrier(w.sched), true, w.hand, w.hand, [])
    case Handle(r) =>
      w.(sched := Booked(w.sched, r), hand := if r.step == w.sched.time then Admitted(r) else Empty)
    case Test =>
      var r, s := w.hand.reply, w.sched.(barrier := NoteFinal(w.sched.barrier, w.hand.reply));
      if Awaited(s.barrier, r.agent) then w.(sched := s, hand := Passed(r))
      else w.(sched := s, hand := Empty, heard := Heard(w, r))
    case Add =>
      var r := w.hand.reply;
      w.(sched := w.sched.(barrier := Added(w.sched.barrier, r)), hand := Recorded(r))
    case CountDown =>
      var b := w.sched.barrier;
      w.(sched := w.sched.(barrier := b.(outstanding := b.outstanding - 1)), hand := Empty,
         heard := Heard(w, w.hand.reply))
    case Close(order, final) => w.(sched := Finish(Reap(w.sched, order), final), waiting := false)
  }

  /** A run may start between any two steps. */
  function Start(s: Sched): Race {
    Race(s, false, Empty, Empty, [])
  }

  ghost predicate Run(trace: seq<Race>, events: seq<Event>) {
    && |trace| == |events| + 1 && (exists s :: trace[0] == Start(s))
    && forall i :: 0 <= i < |events| ==> Enabled(trace[i], events[i]) && trace[i + 1] == Apply(trace[i], events[i])
  }

  /** With nothing in between, the four pieces are the handler. */
  lemma HandlerInPieces(w: Race, r: Reply)
    requires w.waiting && Enabled(w, Handle(r))
    ensures var booked := Apply(w, Handle(r));
            var tested := if booked.hand.Admitted? then Apply(booked, Test) else booked;
            var done := if tested.hand.Passed? then Apply(Apply(tested, Add), CountDown) else tested;
            done.sched == AfterReply(w.sched, r) && done.hand.Empty?
            && done.heard == (if r.step == w.sched.time then w.heard + [r] else w.heard)
  {
  }

  // ---------------------------------------------------------------- the invariant

  /** The handler still holds the reply that the reset caught. */
  predicate HoldsCaught(w: Race) {
    !w.hand.Empty? && w.hand.reply.step < w.sched.time
  }

  /** The agent that a reply caught by the reset adds to the responders of the new step. */
  function Stale(caught: Hand, expected: set<AgentId>): set<AgentId> {
    match caught
    case Admitted(r) => {r.agent} * expected
    case Passed(r) => {r.agent}
    case _ => {}
  }

  predicate HandOk(w: Race) {
    && (!w.hand.Empty? ==> w.hand.reply.step <= w.sched.time && (!w.waiting ==> w.hand.reply.step < w.sched.time))
    && (!w.caught.Empty? && w.waiting ==> w.caught.reply.step < w.sched.time)
  }

  /** While the handler still holds the caught reply, nothing else has happened to the fresh barrier. */
  predicate CaughtOk(w: Race) {
    var b := w.sched.barrier;
    && w.heard == [] && b.outstanding == |b.expected|
    && !w.hand.Empty? && !w.caught.Empty? && w.caught.reply == w.hand.reply
    && b.responded == (if w.hand.Recorded? && !w.caught.Recorded? then {w.hand.reply.agent} else {})
    && (w.caught.Recorded? ==> w.hand.Recorded?) && (w.caught.Passed? ==> !w.hand.Admitted?)
    && (w.caught.Admitted? && !w.hand.Admitted? ==> w.hand.reply.agent in b.expected)
  }

  /** The responders that the handled replies account for. */
  function Accounted(w: Race): set<AgentId> {
    AnsweredSet(w.sched.barrier.expected, w.heard, w.sched.time) + Stale(w.caught, w.sched.barrier.expected)
  }

  predicate RespondersOk(w: Race) {
    var b := w.sched.barrier;
    && b.outstanding == |b.expected| - |Accounted(w)| - (if w.caught.Recorded? then 1 else 0)
    && b.responded == Accounted(w) + (if w.hand.Recorded? then {w.hand.reply.agent} else {})
    && (w.hand.Passed? || w.hand.Recorded? ==> w.hand.reply.agent in b.expected - Accounted(w))
  }

  predicate Inv(w: Race) {
    HandOk(w) && (w.waiting ==> if HoldsCaught(w) then CaughtOk(w) else RespondersOk(w))
  }

  lemma NoneAnswered(expected: set<AgentId>, time: int)
    ensures AnsweredSet(expected, [], time) == {}
  {
  }

  lemma BeginKeeps(w: Race)
    requires Inv(w) && Enabled(w, Begin)
    ensures Inv(Apply(w, Begin))
  {
    NoneAnswered(Apply(w, Begin).sched.barrier.expected, w.sched.time);
  }

  lemma TestKeepsCaught(w: Race)
    requires Inv(w) && Enabled(w, Test) && HoldsCaught(w)
    ensures Inv(Apply(w, Test))
  {
    var n, b := Apply(w, Test), w.sched.barrier;
    assert n.sched.barrier.responded == b.responded && n.sched.barrier.expected == b.expected;
    assert n.sched.barrier.outstanding == b.outstanding;
    if w.waiting && n.hand.Empty? {
      NoneAnswered(b.expected, w.sched.time);
      assert w.hand.reply.agent !in b.expected && Accounted(n) == {};
    }
  }

  lemma AnswerAgain(expected: set<AgentId>, rs: seq<Reply>, time: int, r: Reply, stale: set<AgentId>)
    requires r.agent !in expected || r.agent in AnsweredSet(expected, rs, time) + stale
    ensures AnsweredSet(expected, rs + [r], time) + stale == AnsweredSet(expected, rs, time) + stale
  {
    SetGrows(expected, rs, time, r);
  }

  lemma TestKeeps(w: Race)
    requires Inv(w) && Enabled(w, Test) && !HoldsCaught(w)
    ensures Inv(Apply(w, Test))
  {
    var n, b := Apply(w, Test), w.sched.barrier;
    assert n.sched.barrier.responded == b.responded && n.sched.barrier.expected == b.expected;
    if w.waiting && n.hand.Empty? {
      AnswerAgain(b.expected, w.heard, w.sched.time, w.hand.reply, Stale(w.caught, b.expected));
      assert Accounted(n) == Accounted(w);
    }
  }

  lemma AddKeeps(w: Race)
    requires Inv(w) && Enabled(w, Add)
    ensures Inv(Apply(w, Add))
  {
    var n, b := Apply(w, Add), w.sched.barrier;
    assert n.sched.barrier.responded == b.responded + {w.hand.reply.agent};
    assert n.sched.barrier.expected == b.expected && n.sched.barrier.outstanding == b.outstanding;
    if w.waiting && !HoldsCaught(w) {
      assert Accounted(n) == Accounted(w);
    }
  }

  lemma CountKeepsCaught(w: Race)
    requires Inv(w) && Enabled(w, CountDown) && HoldsCaught(w)
    ensures Inv(Apply(w, CountDown))
  {
    NoneAnswered(w.sched.barrier.expected, w.sched.time);
    assert w.waiting ==> Accounted(Apply(w, CountDown)) == if w.caught.Recorded? then {} else {w.hand.reply.agent};
  }

  lemma CountKeeps(w: Race)
    requires Inv(w) && Enabled(w, CountDown) && !HoldsCaught(w)
    ensures Inv(Apply(w, CountDown))
  {
    var r, n := w.hand.reply, Apply(w, CountDown);
    SetGrows(w.sched.barrier.expected, w.heard, w.sched.time, r);
    assert Accounted(n) == Accounted(w) + {r.agent};
    assert |Accounted(w) + {r.agent}| == |Accounted(w)| + 1;
  }

  lemma {:induction false} ReapKeepsTime(s: Sched, order: seq<AgentId>)
    ensures Reap(s, order).time == s.time
  {
    if order != [] {
      ReapKeepsTime(s, order[..|order| - 1]);
    }
  }

  lemma StepKeeps(w: Race, e: Event)
    requires Inv(w) && Enabled(w, e)
    ensures Inv(Apply(w, e))
  {
    match e
    case Begin => BeginKeeps(w);
    case Test => if HoldsCaught(w) {
      TestKeepsCaught(w);
    } else {
      TestKeeps(w);
    }
    case Add => AddKeeps(w);
    case CountDown => if HoldsCaught(w) {
      CountKeepsCaught(w);
    } else {
      CountKeeps(w);
    }
    case Close(order, _) => ReapKeepsTime(w.sched, order);
    case Handle(_) =>
  }

  lemma {:induction false} RunInv(trace: seq<Race>, events: seq<Event>, i: nat)
    requires Run(trace, events) && i < |trace|
    ensures Inv(trace[i])
  {
    if i > 0 {
      RunInv(trace, events, i - 1);
      StepKeeps(trace[i - 1], events[i - 1]);
    }
  }

  // ---------------------------------------------------------------- when the count is right

  /** The expected agents whose answer for this step has not been handled. */
  function Unanswered(w: Race): set<AgentId> {
    w.sched.barrier.expected - AnsweredSet(w.sched.barrier.expected, w.heard, w.sched.time)
  }

  /** The reset caught no reply, or it is still in hand, or it was caught before the second test and its
      agent is not expected, or it was caught before the record and its agent is expected and has since
      answered this step as well. */
  predicate Harmless(w: Race) {
    w.caught.Empty? || HoldsCaught(w)
    || (w.caught.Admitted? && w.caught.reply.agent !in w.sched.barrier.expected)
    || (!w.caught.Recorded? && w.caught.reply.agent in w.sched.barrier.expected
        && w.caught.reply.agent !in Unanswered(w))
  }

  /** In every waiting state of every run the count of outstanding agents is the number of expected agents
      whose answer for this step has not been handled, exactly when the reply caught by the reset, if there
      was one, is harmless. */
  lemma CountIsRightIff(trace: seq<Race>, events: seq<Event>, i: nat)
    requires Run(trace, events) && i < |trace| && trace[i].waiting
    ensures trace[i].sched.barrier.outstanding == |Unanswered(trace[i])| <==> Harmless(trace[i])
  {
    RunInv(trace, events, i);
    var w := trace[i];
    var expected := w.sched.barrier.expected;
    var answered, stale := AnsweredSet(expected, w.heard, w.sched.time), Stale(w.caught, expected);
    assert |expected - answered| == |expected| - |answered|;
    if HoldsCaught(w) {
      NoneAnswered(expected, w.sched.time);
    } else {
      UnionSize(answered, stale);
    }
  }

  /** And with no answer half recorded the responders are those whose answer has been handled, exactly when
      the caught reply is harmless or had been recorded before the reset. */
  lemma RespondersAreRightIff(trace: seq<Race>, events: seq<Event>, i: nat)
    requires Run(trace, events) && i < |trace| && trace[i].waiting && !trace[i].hand.Recorded?
    ensures trace[i].sched.barrier.responded
              == AnsweredSet(trace[i].sched.barrier.expected, trace[i].heard, trace[i].sched.time)
        <==> Harmless(trace[i]) || trace[i].caught.Recorded?
  {
    RunInv(trace, events, i);
    var w := trace[i];
    NoneAnswered(w.sched.barrier.expected, w.sched.time);
  }

  lemma UnionSize(xs: set<AgentId>, ys: set<AgentId>)
    ensures |xs + ys| >= |xs| && (|xs + ys| == |xs| <==> ys <= xs)
  {
    assert xs + ys == xs + (ys - xs);
    assert |xs + (ys - xs)| == |xs| + |ys - xs|;
    if |ys - xs| == 0 {
      assert ys - xs == {};
    }
  }

  // ---------------------------------------------------------------- the handler of `Wakeup`

  /** The handler's side of the wake-up, abstracted from the replies. */
  predicate Fits(w: Race, x: W.Waiter) {
    var b := w.sched.barrier;
    && x.outstanding == b.outstanding && x.unheard == |b.expected - b.responded|
    && match w.hand
       case Passed(r) => x.replyPc == W.Passed(Awaited(b, r.agent))
       case Recorded(_) => x.replyPc == W.Recorded
       case _ => x.replyPc == W.Free
  }

  function Settled(x: W.Waiter): W.Waiter
    requires W.Enabled(x, W.TestCount)
  {
    var y := W.Tested(x);
    if W.Enabled(y, W.Signal) then W.Apply(y, W.Signal) else y
  }

  lemma TestFits(w: Race, x: W.Waiter)
    requires Enabled(w, Test) && Fits(w, x)
    ensures if Apply(w, Test).hand.Passed? then W.Enabled(x, W.Pass) && Fits(Apply(w, Test), W.Apply(x, W.Pass))
            else Fits(Apply(w, Test), x)
  {
    var n, b := Apply(w, Test), w.sched.barrier;
    assert n.sched.barrier.responded == b.responded && n.sched.barrier.expected == b.expected;
    if n.hand.Passed? {
      assert w.hand.reply.agent in b.expected - b.responded;
    }
  }

  lemma AddFits(w: Race, x: W.Waiter)
    requires Enabled(w, Add) && Fits(w, x)
    ensures W.Enabled(x, W.Record) && Fits(Apply(w, Add), W.Apply(x, W.Record))
  {
    var b, a := w.sched.barrier, w.hand.reply.agent;
    assert b.expected - (b.responded + {a}) == (b.expected - b.responded) - {a};
  }

  lemma CountFits(w: Race, x: W.Waiter)
    requires Enabled(w, CountDown) && Fits(w, x)
    ensures W.Enabled(x, W.CountDown) && Fits(Apply(w, CountDown), Settled(W.Apply(x, W.CountDown)))
  {
  }

  /** The reset is that of `Wakeup`, and the reply it catches is counted in addition there exactly if here
      it is past the second test and its agent is not expected, or recorded. */
  lemma BeginFits(w: Race, x: W.Waiter)
    requires Enabled(w, Begin) && Fits(w, x) && x.loopPc.Opening?
    ensures var n := Apply(w, Begin);
            var awaited := w.hand.Passed? && w.hand.reply.agent in n.sched.barrier.expected;
            var open := W.Open(|n.sched.barrier.expected|, awaited);
            && W.Enabled(x, open) && Fits(n, W.Apply(x, open))
            && (W.Apply(x, open).now.extra
                <==> w.hand.Recorded? || (w.hand.Passed? && w.hand.reply.agent !in n.sched.barrier.expected))
  {
    var n := Apply(w, Begin);
    assert n.sched.barrier.expected - {} == n.sched.barrier.expected;
  }

  lemma {:induction false} ReapKeepsBarrier(s: Sched, order: seq<AgentId>)
    ensures Reap(s, order).barrier == s.barrier
  {
    if order != [] {
      ReapKeepsBarrier(s, order[..|order| - 1]);
    }
  }

  lemma OtherFits(w: Race, x: W.Waiter, e: Event)
    requires Enabled(w, e) && Fits(w, x) && (e.Handle? || e.Close?)
    ensures Fits(Apply(w, e), x)
  {
    if e.Close? {
      ReapKeepsBarrier(w.sched, e.order);
    }
  }

  // ---------------------------------------------------------------- three runs

  ghost predicate Reachable(w: Race) {
    exists trace, events :: Run(trace, events) && w == trace[|events|]
  }

  lemma ReachStep(w: Race, e: Event) returns (n: Race)
    requires Reachable(w) && Enabled(w, e)
    ensures Reachable(n) && n == Apply(w, e)
  {
    n := Apply(w, e);
    var trace, events :| Run(trace, events) && w == trace[|events|];
    assert Run(trace + [n], events + [e]);
    assert (trace + [n])[|events + [e]|] == n;
  }

  lemma ReachStart(s: Sched)
    ensures Reachable(Start(s))
  {
    var events: seq<Event> := [];
    assert Run([Start(s)], events) && [Start(s)][|events|] == Start(s);
  }

  function Plain(a: AgentId, step: int): Reply {
    Reply(a, step, Completed, true, 0, None)
  }

  function Idle(collection: map<AgentId, Entry>): Sched {
    Fresh(4).(roster := Roster(collection, []))
  }

  function Counted(b: Barrier, r: Reply): Barrier {
    Added(b, r).(outstanding := b.outstanding - 1)
  }

  /** A whole answer of an awaited agent. */
  lemma ReachAnswered(w: Race, a: AgentId) returns (n: Race)
    requires Reachable(w) && w.waiting && w.hand.Empty? && Awaited(w.sched.barrier, a)
    requires a in w.sched.roster.collection && !w.sched.roster.collection[a].pendingBoot && a !in w.sched.naps.until
    ensures Reachable(n) && n == w.(sched := w.sched.(barrier := Counted(w.sched.barrier, Plain(a, w.sched.time))),
                                    heard := w.heard + [Plain(a, w.sched.time)])
  {
    var r := Plain(a, w.sched.time);
    n := ReachStep(w, Handle(r));
    assert Booked(w.sched, r) == w.sched;
    n := ReachStep(n, Test);
    n := ReachStep(n, Add);
    n := ReachStep(n, CountDown);
  }

  const NO_NAPS: Naps := Naps(map[], map[])

  /** A reset while nobody sleeps. */
  lemma ReachBegun(w: Race) returns (n: Race)
    requires Reachable(w) && !w.waiting && w.sched.naps == NO_NAPS
    ensures Reachable(n) && n.waiting && n.hand == w.hand && n.caught == w.hand && n.heard == []
    ensures n.sched.time == w.sched.time && n.sched.roster == w.sched.roster && n.sched.naps == NO_NAPS
    ensures n.sched.barrier.expected == ExpectedSet(w.sched.roster.collection, {})
    ensures n.sched.barrier == Reset(Baseline(n.sched.barrier.expected, n.sched.barrier.bootingCount, 0))
  {
    n := ReachStep(w, Begin);
    assert n.sched.naps == NO_NAPS;
  }

  lemma ReachClosedFull(w: Race) returns (n: Race)
    requires Reachable(w) && w.waiting && Victims(w.sched.barrier) == {}
    ensures Reachable(n) && n == w.(sched := w.sched.(time := w.sched.time + 1), waiting := false)
  {
    n := ReachStep(w, Close([], false));
  }

  /** A close that prunes one silent agent. */
  lemma CloseOne(w: Race, a: AgentId)
    requires w.waiting && Victims(w.sched.barrier) == {a} && w.sched.naps == NO_NAPS
    ensures Enabled(w, Close([a], false))
    ensures var n := Apply(w, Close([a], false));
            && n.sched.roster.collection == w.sched.roster.collection - {a} && n.sched.naps == NO_NAPS
            && n.sched.time == w.sched.time + 1 && !n.waiting && n.hand == w.hand
  {
    assert [a][..0] == [];
    assert Reap(w.sched, [a]) == ReapOne(Reap(w.sched, [a][..0]), a);
  }

  lemma ReachClosedOne(w: Race, a: AgentId) returns (n: Race)
    requires Reachable(w) && w.waiting && Victims(w.sched.barrier) == {a} && w.sched.naps == NO_NAPS
    ensures Reachable(n) && n.sched.roster.collection == w.sched.roster.collection - {a}
    ensures n.sched.naps == NO_NAPS && n.sched.time == w.sched.time + 1 && !n.waiting && n.hand == w.hand
  {
    CloseOne(w, a);
    n := ReachStep(w, Close([a], false));
  }

  /** Agent 0 has answered; agent 1 has just booted, and its first answer is past the step test. */
  lemma ReachBooted() returns (w: Race)
    ensures Reachable(w) && w.waiting && w.hand == Admitted(Plain(1, 4)) && w.sched.time == 4
    ensures w.sched.naps == NO_NAPS && Victims(w.sched.barrier) == {}
    ensures w.sched.roster.collection == map[0 := Entry(0, false), 1 := Entry(1, false)]
  {
    var s := Idle(map[0 := Entry(0, false), 1 := Entry(1, true)]);
    ReachStart(s);
    w := ReachBegun(Start(s));
    assert w.sched.barrier.expected == {0};
    w := ReachAnswered(w, 0);
    w := ReachStep(w, Handle(Plain(1, 4)));
  }

  /** The reset comes there, and both agents are expected. */
  lemma ReachBothExpected() returns (w: Race)
    ensures Reachable(w) && w.waiting && w.hand == Admitted(Plain(1, 4)) && w.sched.time == 5 && w.heard == []
    ensures w.sched.naps == NO_NAPS && w.sched.barrier.expected == {0, 1} && w.sched.barrier.outstanding == 2
    ensures w.sched.barrier.responded == w.sched.barrier.shutdownReplied == {}
    ensures w.sched.roster.collection == map[0 := Entry(0, false), 1 := Entry(1, false)]
  {
    w := ReachBooted();
    w := ReachClosedFull(w);
    w := ReachBegun(w);
    assert w.sched.barrier.expected == {0, 1};
  }

  /** A first answer is caught by the reset between the step test and the second test.  Its agent is
      expected now, so its old answer is counted for the new step, whose wait ends without its new one. */
  lemma AnswerOfTheLastStepCounts() returns (w: Race)
    ensures Reachable(w) && w.waiting && w.hand.Empty? && w.sched.barrier.outstanding == 0
    ensures 1 in Unanswered(w) && 1 !in Victims(w.sched.barrier)
  {
    w := ReachBothExpected();
    w := ReachStep(w, Test);
    w := ReachStep(w, Add);
    w := ReachStep(w, CountDown);
    w := ReachAnswered(w, 0);
  }

  lemma ReachOneAnswered() returns (w: Race)
    ensures Reachable(w) && w.waiting && w.hand.Empty? && w.sched.time == 4 && w.sched.naps == NO_NAPS
    ensures w.sched.barrier.expected == {0, 1} && w.sched.barrier.responded == {1}
    ensures w.sched.barrier.shutdownReplied == {}
    ensures w.sched.roster == Roster(map[0 := Entry(0, false), 1 := Entry(1, false)], [])
  {
    var s := Idle(map[0 := Entry(0, false), 1 := Entry(1, false)]);
    ReachStart(s);
    w := ReachBegun(Start(s));
    assert w.sched.barrier.expected == {0, 1};
    w := ReachAnswered(w, 1);
  }

  /** Agent 1 has answered, and agent 0's answer is past both tests. */
  lemma ReachPassed() returns (w: Race)
    ensures Reachable(w) && w.waiting && w.hand == Passed(Plain(0, 4)) && w.sched.time == 4
    ensures w.sched.barrier.shutdownReplied == {}
    ensures w.sched.naps == NO_NAPS && Victims(w.sched.barrier) == {0}
    ensures w.sched.roster.collection == map[0 := Entry(0, false), 1 := Entry(1, false)]
  {
    w := ReachOneAnswered();
    w := ReachStep(w, Handle(Plain(0, 4)));
    w := ReachStep(w, Test);
  }

  /** The wait was given up there. */
  lemma ReachLateAnswer() returns (w: Race)
    ensures Reachable(w) && !w.waiting && w.hand == Passed(Plain(0, 4)) && w.sched.time == 5
    ensures w.sched.naps == NO_NAPS && w.sched.roster.collection == map[1 := Entry(1, false)]
  {
    w := ReachPassed();
    w := ReachClosedOne(w, 0);
  }

  /** A late answer is caught by the reset between the second test and the count.  Its agent has been
      pruned; its count is taken from the new step, whose wait ends with the one expected agent silent,
      and that agent, which nobody waited for, is pruned. */
  lemma LateAnswerPrunesAnother() returns (w: Race)
    ensures Reachable(w) && w.waiting && w.hand.Empty? && w.sched.barrier.outstanding == 0
    ensures Unanswered(w) == Victims(w.sched.barrier) == {1} && 1 in w.sched.roster.collection
    ensures Enabled(w, Close([1], false)) && 1 !in Apply(w, Close([1], false)).sched.roster.collection
  {
    w := ReachLateAnswer();
    w := ReachBegun(w);
    assert w.sched.barrier.expected == {1};
    w := ReachStep(w, Add);
    w := ReachStep(w, CountDown);
    CloseOne(w, 1);
  }

  /** Agent 1 has answered, agent 0 has been recorded and not counted down, and the wait was given up. */
  lemma ReachRecorded() returns (w: Race)
    ensures Reachable(w) && !w.waiting && w.hand == Recorded(Plain(0, 4)) && w.sched.time == 5
    ensures w.sched.naps == NO_NAPS
    ensures w.sched.roster.collection == map[0 := Entry(0, false), 1 := Entry(1, false)]
  {
    w := ReachPassed();
    assert 0 in Victims(w.sched.barrier);
    w := ReachStep(w, Add);
    assert Victims(w.sched.barrier) == {};
    w := ReachClosedFull(w);
  }

  /** An answer is caught by the reset between the record and the count-down.  Its agent answers the new
      step as well and is counted twice for it: the wait ends with the other agent silent, which is pruned. */
  lemma RecordedAnswerCountsTwice() returns (w: Race)
    ensures Reachable(w) && w.waiting && w.hand.Empty? && w.sched.barrier.outstanding == 0
    ensures 0 !in Unanswered(w) && Unanswered(w) == Victims(w.sched.barrier) == {1}
    ensures Enabled(w, Close([1], false)) && 1 !in Apply(w, Close([1], false)).sched.roster.collection
  {
    w := ReachRecorded();
    w := ReachBegun(w);
    assert w.sched.barrier.expected == {0, 1};
    w := ReachStep(w, CountDown);
    w := ReachAnswered(w, 0);
    assert Victims(w.sched.barrier) == {1};
    CloseOne(w, 1);
  }
}
