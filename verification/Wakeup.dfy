/** The single wake-up of `confirm_responses`: the event loop's check, clear, re-check and wait,
    interleaved with a reply handler that records an answer, counts down, tests the count and queues one
    callback.  The reset of the next step may fall anywhere in the handler. */
module Wakeup {
  import opened Options

  /** Where the event loop is: between steps, opening one, or in the waiting loop. */
  datatype LoopPc = Away | Opening | Checking | Clearing | Rechecking | Parked

  /** Where the reply handler is: past the test whether the agent is awaited, with the agent among the
      responders, past the count-down, or about to signal.  `awaited` says that recording the agent takes
      it out of the unheard; `of` is the step whose count went down. */
  datatype ReplyPc = Free | Passed(awaited: bool) | Recorded | Counted(of: nat) | Signalling(of: nat)

  /** History of a step: how many it expected; whether its reset caught a reply that will be counted in
      addition to those; how often it was counted down; its wake-ups; and whether the test after its last
      count-down was late and read more than zero although the count had been down, or the reverse. */
  datatype Story = Story(size: nat, extra: bool, counts: nat, signals: nat, missed: bool, spurious: bool)

  /** `unheard` are the expected agents not yet among the responders. */
  datatype Waiter = Waiter(
    outstanding: int,
    unheard: nat,
    eventSet: bool,
    queued: nat,
    loopPc: LoopPc,
    replyPc: ReplyPc,
    past: seq<Story>,
    now: Story)

  datatype Act =
    | ClearAtStart
    | Open(expected: nat, awaited: bool)
    | Check(early: bool)
    | Clear
    | Recheck(early: bool)
    | Resume
    | Poll
    | GiveUp
    | RunCallback
    | Pass
    | Record
    | CountDown
    | TestCount
    | Signal

  function Current(w: Waiter): nat {
    |w.past|
  }

  function StoryOf(w: Waiter, k: nat): Story
    requires k <= Current(w)
  {
    if k < |w.past| then w.past[k] else w.now
  }

  function WithStory(w: Waiter, k: nat, s: Story): Waiter
    requires k <= Current(w)
  {
    if k < |w.past| then w.(past := w.past[k := s]) else w.(now := s)
  }

  /** The last count-down of the step brought its count to zero or below. */
  predicate WentDown(s: Story) {
    s.counts >= Max(s.size, 1)
  }

  predicate Enabled(w: Waiter, a: Act) {
    match a
    case ClearAtStart => w.loopPc.Away?
    case Open(n, awaited) => w.loopPc.Opening? && (awaited ==> n > 0)
    case Check(_) => w.loopPc.Checking?
    case Clear => w.loopPc.Clearing?
    case Recheck(_) => w.loopPc.Rechecking?
    case Resume => w.loopPc.Parked? && w.eventSet
    case Poll => w.loopPc.Parked?
    case GiveUp => w.loopPc.Parked?
    case RunCallback => w.queued > 0 && (w.loopPc.Parked? || w.loopPc.Away?)
    case Pass => w.replyPc.Free? && w.unheard > 0
    case Record => w.replyPc.Passed?
    case CountDown => w.replyPc.Recorded?
    case TestCount => w.replyPc.Counted? && w.replyPc.of <= Current(w)
    case Signal => w.replyPc.Signalling? && w.replyPc.of <= Current(w)
  }

  /** The reset; of a reply past the second test it matters whether its agent is awaited again. */
  function Opened(w: Waiter, n: nat, awaited: bool): Waiter {
    var pc := if w.replyPc.Passed? then Passed(awaited) else w.replyPc;
    w.(outstanding := n, unheard := n, loopPc := Checking, replyPc := pc, past := w.past + [w.now],
       now := Story(n, pc == Passed(false) || pc.Recorded?, 0, 0, false, false))
  }

  function Tested(w: Waiter): Waiter
    requires Enabled(w, TestCount)
  {
    var k := w.replyPc.of;
    var s, down := StoryOf(w, k), w.outstanding <= 0;
    WithStory(w, k, s.(missed := s.missed || (WentDown(s) && !down), spurious := s.spurious || (!WentDown(s) && down)))
    .(replyPc := if down then Signalling(k) else Free)
  }

  /** `early` is the tolerance rule of the wait; callbacks run only when the loop yields. */
  function Apply(w: Waiter, a: Act): Waiter
    requires Enabled(w, a)
  {
    match a
    case ClearAtStart => w.(eventSet := false, loopPc := Opening)
    case Open(n, awaited) => Opened(w, n, awaited)
    case Check(early) => w.(loopPc := if w.outstanding <= 0 || early then Away else Clearing)
    case Clear => w.(eventSet := false, loopPc := Rechecking)
    case Recheck(early) => w.(loopPc := if w.outstanding <= 0 || early then Away else Parked)
    case Resume => w.(loopPc := Checking)
    case Poll => w.(loopPc := Checking)
    case GiveUp => w.(loopPc := Away)
    case RunCallback => w.(queued := w.queued - 1, eventSet := true)
    case Pass => w.(replyPc := Passed(true))
    case Record =>
      w.(replyPc := Recorded, unheard := if w.replyPc.awaited && w.unheard > 0 then w.unheard - 1 else w.unheard)
    case CountDown =>
      w.(outstanding := w.outstanding - 1, replyPc := Counted(Current(w)),
         now := w.now.(counts := w.now.counts + 1))
    case TestCount => Tested(w)
    case Signal =>
      var k := w.replyPc.of;
      WithStory(w, k, StoryOf(w, k).(signals := StoryOf(w, k).signals + 1)).(queued := w.queued + 1, replyPc := Free)
  }

  const NO_STORY := Story(0, false, 0, 0, false, false)
  const START := Waiter(0, 0, false, 0, Away, Free, [], NO_STORY)

  ghost predicate Run(trace: seq<Waiter>, acts: seq<Act>) {
    && |trace| == |acts| + 1
    && trace[0] == START
    && forall i :: 0 <= i < |acts| ==> Enabled(trace[i], acts[i]) && trace[i + 1] == Apply(trace[i], acts[i])
  }

  // ---------------------------------------------------------------- no lost wake-up

  predicate WakeupComing(w: Waiter) {
    w.eventSet || w.queued > 0 || w.replyPc.Counted? || w.replyPc.Signalling?
  }

  predicate NotLost(w: Waiter) {
    && (w.replyPc.Counted? || w.replyPc.Signalling? ==> w.replyPc.of <= Current(w))
    && (w.loopPc.Parked? && w.outstanding <= 0 ==> WakeupComing(w))
  }

  /** A parked loop with nothing left to wait for has its wake-up set, queued, or in the hands of the
      reply handler, which is past the count-down: the poll is never needed. */
  lemma {:induction false} NoLostWakeup(trace: seq<Waiter>, acts: seq<Act>, i: nat)
    requires Run(trace, acts) && i < |trace|
    ensures NotLost(trace[i])
  {
    if i > 0 {
      NoLostWakeup(trace, acts, i - 1);
      NotLostKept(trace[i - 1], acts[i - 1]);
    }
  }

  lemma NotLostKept(w: Waiter, a: Act)
    requires NotLost(w) && Enabled(w, a)
    ensures NotLost(Apply(w, a))
  {
  }

  /** How many actions away the wake-up is. */
  function Distance(w: Waiter): nat {
    if w.eventSet then 1
    else if w.queued > 0 then 2
    else if w.replyPc.Signalling? then 3
    else 4
  }

  /** The next action towards it. */
  function Towards(w: Waiter): Act {
    if w.eventSet then Resume
    else if w.queued > 0 then RunCallback
    else if w.replyPc.Signalling? then Signal
    else TestCount
  }

  /** Without the poll, a finished wait ends within four actions of the two threads, and nothing the
      other thread does in between moves it away. */
  lemma WakesWithoutPoll(trace: seq<Waiter>, acts: seq<Act>, i: nat, other: Act)
    requires Run(trace, acts) && i < |trace|
    requires trace[i].loopPc.Parked? && trace[i].outstanding <= 0
    ensures Enabled(trace[i], Towards(trace[i]))
    ensures var next := Apply(trace[i], Towards(trace[i]));
            next.outstanding <= 0
            && (next.loopPc.Checking? || (next.loopPc.Parked? && Distance(next) < Distance(trace[i])))
    ensures Enabled(trace[i], other) ==>
              var next := Apply(trace[i], other);
              !next.loopPc.Parked? || (next.outstanding <= 0 && Distance(next) <= Distance(trace[i]))
  {
    NoLostWakeup(trace, acts, i);
  }

  // ---------------------------------------------------------------- how often a step signals

  predicate PendingFor(w: Waiter, k: nat) {
    (w.replyPc.Counted? || w.replyPc.Signalling?) && w.replyPc.of == k
  }

  /** How many count-downs of the step found its count at zero or below. */
  function TimesDown(s: Story): nat {
    if WentDown(s) then s.counts - Max(s.size, 1) + 1 else 0
  }

  function One(b: bool): nat {
    if b then 1 else 0
  }

  /** `counted` and `signalling` say where the handler is with this step. */
  predicate StoryOk(s: Story, counted: bool, signalling: bool) {
    && s.signals + One(signalling) + One(counted && WentDown(s)) + One(s.missed) == TimesDown(s) + One(s.spurious)
    && s.counts <= s.size + One(s.extra)
    && (s.missed ==> WentDown(s)) && (s.spurious ==> !WentDown(s))
    && (counted ==> s.counts > 0 && !s.missed && !s.spurious)
  }

  predicate NowOk(w: Waiter) {
    && w.outstanding == w.now.size - w.now.counts && w.unheard <= w.now.size
    && w.now.counts + One(w.replyPc.Recorded? || w.replyPc == Passed(false))
       == w.now.size - w.unheard + One(w.now.extra)
    && (w.replyPc == Passed(true) ==> w.unheard > 0)
    && !w.now.missed && !w.now.spurious
    && (w.replyPc.Counted? || w.replyPc.Signalling? ==> w.replyPc.of <= Current(w))
  }

  predicate AtStory(w: Waiter, k: nat)
    requires k <= Current(w)
  {
    StoryOk(StoryOf(w, k), w.replyPc == Counted(k), w.replyPc == Signalling(k))
  }

  ghost predicate Inv(w: Waiter) {
    NowOk(w) && forall k :: 0 <= k <= Current(w) ==> AtStory(w, k)
  }

  /** The event loop's own actions, but for the reset, touch neither counts nor stories. */
  predicate OfLoop(a: Act) {
    || a.ClearAtStart? || a.Check? || a.Clear? || a.Recheck? || a.Resume? || a.Poll? || a.GiveUp? || a.RunCallback?
  }

  lemma LoopKeeps(w: Waiter, a: Act)
    requires Inv(w) && Enabled(w, a) && OfLoop(a)
    ensures Inv(Apply(w, a))
  {
    StoriesStay(w, Apply(w, a));
  }

  lemma StoriesStay(w: Waiter, n: Waiter)
    requires Inv(w) && NowOk(n) && n.past == w.past && n.now == w.now
    requires n.replyPc == w.replyPc || (n.replyPc.Passed? || n.replyPc.Recorded?)
    requires n.replyPc != w.replyPc ==> !w.replyPc.Counted? && !w.replyPc.Signalling?
    ensures Inv(n)
  {
    forall k | 0 <= k <= Current(n)
      ensures AtStory(n, k)
    {
      assert AtStory(w, k);
    }
  }

  lemma RecordKeeps(w: Waiter, a: Act)
    requires Inv(w) && Enabled(w, a) && (a.Pass? || a.Record?)
    ensures Inv(Apply(w, a))
  {
    StoriesStay(w, Apply(w, a));
  }

  lemma OpenKeeps(w: Waiter, n: nat, awaited: bool)
    requires Inv(w) && Enabled(w, Open(n, awaited))
    ensures Inv(Opened(w, n, awaited))
  {
    var o := Opened(w, n, awaited);
    forall k | 0 <= k <= Current(o)
      ensures AtStory(o, k)
    {
      if k <= Current(w) {
        assert AtStory(w, k) && StoryOf(o, k) == StoryOf(w, k);
      }
    }
  }

  lemma CountKeeps(w: Waiter)
    requires Inv(w) && Enabled(w, CountDown)
    ensures Inv(Apply(w, CountDown))
  {
    var o := Apply(w, CountDown);
    forall k | 0 <= k <= Current(o)
      ensures AtStory(o, k)
    {
      assert AtStory(w, k);
    }
  }

  /** The test and the signal change the story of the handler's step. */
  lemma OneStoryChanges(w: Waiter, o: Waiter, s: Story)
    requires Inv(w) && (w.replyPc.Counted? || w.replyPc.Signalling?) && NowOk(o)
    requires o.past == WithStory(w, w.replyPc.of, s).past && o.now == WithStory(w, w.replyPc.of, s).now
    requires o.replyPc.Free? || o.replyPc == Signalling(w.replyPc.of)
    requires StoryOk(s, false, o.replyPc == Signalling(w.replyPc.of))
    ensures Inv(o)
  {
    forall k | 0 <= k <= Current(o)
      ensures AtStory(o, k)
    {
      assert AtStory(w, k);
    }
  }

  lemma TestKeeps(w: Waiter)
    requires Inv(w) && Enabled(w, TestCount)
    ensures Inv(Apply(w, TestCount))
  {
    var o, k := Tested(w), w.replyPc.of;
    assert AtStory(w, k);
    OneStoryChanges(w, o, StoryOf(o, k));
  }

  lemma SignalKeeps(w: Waiter)
    requires Inv(w) && Enabled(w, Signal)
    ensures Inv(Apply(w, Signal))
  {
    var o, k := Apply(w, Signal), w.replyPc.of;
    assert AtStory(w, k);
    OneStoryChanges(w, o, StoryOf(o, k));
  }

  lemma StepKeeps(w: Waiter, a: Act)
    requires Inv(w) && Enabled(w, a)
    ensures Inv(Apply(w, a))
  {
    match a
    case Open(n, awaited) => OpenKeeps(w, n, awaited);
    case Pass => RecordKeeps(w, a);
    case Record => RecordKeeps(w, a);
    case CountDown => CountKeeps(w);
    case TestCount => TestKeeps(w);
    case Signal => SignalKeeps(w);
    case _ => LoopKeeps(w, a);
  }

  lemma FirstInv(w: Waiter)
    requires w.past == [] && w.now.size == w.now.counts == w.now.signals == 0
    requires !w.now.extra && !w.now.missed && !w.now.spurious
    requires w.outstanding == 0 && w.unheard == 0 && w.replyPc.Free?
    ensures Inv(w)
  {
  }

  lemma {:induction false} RunInv(trace: seq<Waiter>, acts: seq<Act>, i: nat)
    requires Run(trace, acts) && i < |trace|
    ensures Inv(trace[i])
  {
    if i == 0 {
      FirstInv(trace[0]);
    } else {
      RunInv(trace, acts, i - 1);
      StepKeeps(trace[i - 1], acts[i - 1]);
    }
  }

  /** In every run, once the handler is done with a step: the step has signalled once for every count-down
      that found its count at zero or below, but for the last test, if that came late.  A non-empty step
      signals at most twice, and twice exactly if it was counted down once more than it expected, which
      takes a reply caught by its reset, and the last test still read zero or less; and not at all exactly
      if it was not counted down to zero, or just so, and the last test read otherwise. */
  lemma StepSignalsIff(trace: seq<Waiter>, acts: seq<Act>, i: nat, k: nat)
    requires Run(trace, acts) && i < |trace| && k <= Current(trace[i]) && !PendingFor(trace[i], k)
    ensures var s := StoryOf(trace[i], k);
            && s.signals + One(s.missed) == TimesDown(s) + One(s.spurious)
            && s.counts <= s.size + One(s.extra)
            && (s.size > 0 ==>
                  && s.signals <= 2
                  && (s.signals == 2 <==> s.counts == s.size + 1 && !s.missed)
                  && (s.signals == 0 <==> if s.counts < s.size then !s.spurious else s.counts == s.size && s.missed))
  {
    RunInv(trace, acts, i);
    assert AtStory(trace[i], k);
  }

  /** So a non-empty step that is still current, whose expected agents have all been heard and whose
      handler is done, has signalled once, or twice exactly if its reset caught a reply that is counted in
      addition. */
  lemma HeardStepSignalsIff(trace: seq<Waiter>, acts: seq<Act>, i: nat)
    requires Run(trace, acts) && i < |trace|
    requires trace[i].now.size > 0 && trace[i].unheard == 0 && trace[i].replyPc.Free?
    ensures trace[i].now.signals == if trace[i].now.extra then 2 else 1
    ensures trace[i].outstanding == if trace[i].now.extra then -1 else 0
  {
    RunInv(trace, acts, i);
    assert AtStory(trace[i], Current(trace[i]));
  }

  /** The handler tests the count for step `k`: whether its last count-down had brought it down, and
      whether the test read it as down. */
  predicate Tests(w: Waiter, a: Act, k: nat, went: bool, read: bool) {
    && a.TestCount? && k <= Current(w) && w.replyPc == Counted(k)
    && WentDown(StoryOf(w, k)) == went && (w.outstanding <= 0) == read
  }

  ghost predicate TestedSo(trace: seq<Waiter>, acts: seq<Act>, i: nat, k: nat, went: bool, read: bool)
    requires i <= |acts| <= |trace|
  {
    exists j :: 0 <= j < i && Tests(trace[j], acts[j], k, went, read)
  }

  lemma TestedNext(trace: seq<Waiter>, acts: seq<Act>, i: nat, k: nat, went: bool, read: bool)
    requires 0 < i <= |acts| <= |trace|
    ensures TestedSo(trace, acts, i, k, went, read)
       <==> TestedSo(trace, acts, i - 1, k, went, read) || Tests(trace[i - 1], acts[i - 1], k, went, read)
  {
  }

  /** What the two marks of a late test say: some earlier test read otherwise than the count-down left. */
  lemma {:induction false} LateTestMeans(trace: seq<Waiter>, acts: seq<Act>, i: nat, k: nat)
    requires Run(trace, acts) && i < |trace| && k <= Current(trace[i])
    ensures StoryOf(trace[i], k).missed <==> TestedSo(trace, acts, i, k, true, false)
    ensures StoryOf(trace[i], k).spurious <==> TestedSo(trace, acts, i, k, false, true)
  {
    if i > 0 {
      if k <= Current(trace[i - 1]) {
        LateTestMeans(trace, acts, i - 1, k);
        MarksAfter(trace[i - 1], acts[i - 1], k);
        TestedNext(trace, acts, i, k, true, false);
        TestedNext(trace, acts, i, k, false, true);
      } else {
        NotYetOpen(trace, acts, i - 1, k);
      }
    }
  }

  lemma MarksAfter(w: Waiter, a: Act, k: nat)
    requires Enabled(w, a) && k <= Current(w)
    ensures k <= Current(Apply(w, a))
    ensures StoryOf(Apply(w, a), k).missed <==> StoryOf(w, k).missed || Tests(w, a, k, true, false)
    ensures StoryOf(Apply(w, a), k).spurious <==> StoryOf(w, k).spurious || Tests(w, a, k, false, true)
  {
  }

  lemma {:induction false} NotYetOpen(trace: seq<Waiter>, acts: seq<Act>, i: nat, k: nat)
    requires Run(trace, acts) && i < |trace| && k > Current(trace[i])
    ensures forall j :: 0 <= j <= i ==> k > Current(trace[j])
  {
    if i > 0 {
      NotYetOpen(trace, acts, i - 1, k);
    }
  }

  // ---------------------------------------------------------------- two runs

  ghost predicate Reachable(w: Waiter) {
    exists trace, acts :: Run(trace, acts) && w == trace[|acts|]
  }

  lemma ReachStep(w: Waiter, a: Act) returns (n: Waiter)
    requires Reachable(w) && Enabled(w, a)
    ensures Reachable(n) && n == Apply(w, a)
  {
    n := Apply(w, a);
    var trace, acts :| Run(trace, acts) && w == trace[|acts|];
    assert Run(trace + [n], acts + [a]);
    assert (trace + [n])[|acts + [a]|] == n;
  }

  lemma ReachStart()
    ensures Reachable(START)
  {
    var acts: seq<Act> := [];
    assert Run([START], acts) && [START][|acts|] == START;
  }

  lemma ReachOpened(w: Waiter, n: nat) returns (o: Waiter)
    requires Reachable(w) && w.loopPc.Away?
    ensures Reachable(o) && o == Opened(w.(eventSet := false, loopPc := Opening), n, false)
  {
    o := ReachStep(w, ClearAtStart);
    o := ReachStep(o, Open(n, false));
  }

  /** A reply in hand is recorded and counted. */
  lemma ReachCounted(w: Waiter) returns (o: Waiter)
    requires Reachable(w) && w.replyPc.Passed?
    ensures Reachable(o) && o.replyPc == Counted(Current(w)) && o.outstanding == w.outstanding - 1
    ensures o.now == w.now.(counts := w.now.counts + 1) && o.past == w.past && o.loopPc == w.loopPc
    ensures o.unheard == if w.replyPc.awaited && w.unheard > 0 then w.unheard - 1 else w.unheard
  {
    o := ReachStep(w, Record);
    o := ReachStep(o, CountDown);
  }

  /** It is counted and tested, and signals if the count is down. */
  lemma ReachHandled(w: Waiter) returns (o: Waiter)
    requires Reachable(w) && w.replyPc.Passed? && w.outstanding == w.now.size - w.now.counts
    requires !w.now.missed && !w.now.spurious
    ensures Reachable(o) && o.replyPc.Free? && o.past == w.past && o.loopPc == w.loopPc
    ensures o.outstanding == w.outstanding - 1
    ensures o.now == w.now.(counts := w.now.counts + 1,
                            signals := if w.outstanding <= 1 then w.now.signals + 1 else w.now.signals)
    ensures o.unheard == if w.replyPc.awaited && w.unheard > 0 then w.unheard - 1 else w.unheard
  {
    o := ReachCounted(w);
    o := ReachStep(o, TestCount);
    if o.replyPc.Signalling? {
      o := ReachStep(o, Signal);
    }
  }

  /** A fully answered step need not signal: a loop that sees the count first opens the next step, and the
      delayed test then reads the new count. */
  lemma SignalCanBeSkipped() returns (w: Waiter)
    ensures Reachable(w) && w.replyPc.Free?
    ensures Current(w) == 2 && w.past[1] == Story(1, false, 1, 0, true, false)
  {
    ReachStart();
    w := ReachOpened(START, 1);
    w := ReachStep(w, Pass);
    w := ReachCounted(w);
    w := ReachStep(w, Check(false));
    w := ReachOpened(w, 1);
    w := ReachStep(w, TestCount);
  }

  /** Two agents expected, one answers, the other's answer is past the second test, and the wait is given
      up. */
  lemma ReachGivenUp() returns (w: Waiter)
    ensures Reachable(w) && w.loopPc.Away? && w.replyPc.Passed?
  {
    ReachStart();
    w := ReachOpened(START, 2);
    w := ReachStep(w, Pass);
    w := ReachHandled(w);
    w := ReachStep(w, Pass);
    w := ReachStep(w, Check(true));
  }

  /** A step can signal twice: the next reset catches that answer, whose agent is not expected any more;
      after it the answers of the two agents expected both find the count down. */
  lemma StepSignalsTwice() returns (w: Waiter)
    ensures Reachable(w) && w.replyPc.Free?
    ensures w.now.size == 2 && w.now.extra && w.now.counts == 3 && w.now.signals == 2
  {
    w := ReachGivenUp();
    w := ReachOpened(w, 2);
    w := ReachHandled(w);
    w := ReachStep(w, Pass);
    w := ReachHandled(w);
    w := ReachStep(w, Pass);
    w := ReachHandled(w);
  }
}
