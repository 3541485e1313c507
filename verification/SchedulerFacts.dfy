/** Facts about single scheduler operations: the barrier tally, the stash, the sweep. */
module SchedulerFacts {
  import opened Options
  import opened Scheduler

  // ---------------------------------------------------------------- the tally

  function Total(m: map<Action, nat>): nat {
    Count(m, Completed) + Count(m, Ready) + Count(m, Error) + Count(m, Shutdown)
  }

  /** The counters agree with the two sets they summarise. */
  ghost predicate TallyOk(b: Barrier) {
    && b.responded <= b.expected
    && b.outstanding == |b.expected| - |b.responded|
    && Total(b.reactions) == |b.responded|
    && b.didStepCount <= |b.responded|
  }

  lemma TotalUp(m: map<Action, nat>, x: Action)
    ensures Total(m[x := Count(m, x) + 1]) == Total(m) + 1
  {
    var n := m[x := Count(m, x) + 1];
    assert forall y :: y != x ==> Count(n, y) == Count(m, y);
  }

  lemma CountKeepsTally(b: Barrier, r: Reply)
    requires TallyOk(b)
    ensures TallyOk(CountReply(b, r))
  {
    if r.agent in b.expected && r.agent !in b.responded {
      TotalUp(b.reactions, r.action);
      assert |b.responded + {r.agent}| == |b.responded| + 1;
    }
  }

  lemma TallyKeepsCount(b: Barrier, time: int, r: Reply)
    requires TallyOk(b)
    ensures TallyOk(Tally(b, time, r))
  {
    if r.step == time {
      CountKeepsTally(NoteFinal(b, r), r);
    }
  }

  function TallyAll(b: Barrier, time: int, rs: seq<Reply>): Barrier {
    if rs == [] then b else Tally(TallyAll(b, time, rs[..|rs| - 1]), time, rs[|rs| - 1])
  }

  lemma TallySnoc(b: Barrier, time: int, rs: seq<Reply>, r: Reply)
    ensures TallyAll(b, time, rs + [r]) == Tally(TallyAll(b, time, rs), time, r)
  {
    assert (rs + [r])[..|rs|] == rs;
  }

  /** The first reply of `a` for step `time`. */
  function FirstAnswer(rs: seq<Reply>, a: AgentId, time: int): Option<Reply> {
    if rs == [] then None
    else
      var n := |rs| - 1;
      var before := FirstAnswer(rs[..n], a, time);
      if before.Some? then before
      else if rs[n].agent == a && rs[n].step == time then Some(rs[n])
      else None
  }

  predicate Answered(rs: seq<Reply>, a: AgentId, time: int) {
    exists r :: r in rs && r.agent == a && r.step == time
  }

  predicate Quit(rs: seq<Reply>, a: AgentId, time: int) {
    exists r :: r in rs && r.agent == a && r.step == time && r.action == Shutdown
  }

  lemma SnocAnswers(rs: seq<Reply>, r: Reply, b: AgentId, time: int)
    ensures Answered(rs + [r], b, time) <==> Answered(rs, b, time) || (r.agent == b && r.step == time)
    ensures Quit(rs + [r], b, time)
        <==> Quit(rs, b, time) || (r.agent == b && r.step == time && r.action == Shutdown)
  {
    assert r in rs + [r];
    assert forall x :: x in rs ==> x in rs + [r];
    assert forall x :: x in rs + [r] ==> x in rs || x == r;
  }

  /** A plain recount, straight from the replies. */
  function AnsweredSet(expected: set<AgentId>, rs: seq<Reply>, time: int): set<AgentId> {
    set a | a in expected && Answered(rs, a, time)
  }

  function AnsweredAs(expected: set<AgentId>, rs: seq<Reply>, time: int, x: Action): set<AgentId> {
    set a | a in expected && FirstAnswer(rs, a, time).Some? && FirstAnswer(rs, a, time).value.action == x
  }

  function Stepped(expected: set<AgentId>, rs: seq<Reply>, time: int): set<AgentId> {
    set a | a in expected && FirstAnswer(rs, a, time).Some? && FirstAnswer(rs, a, time).value.didStep
  }

  lemma TallyFields(b: Barrier, time: int, r: Reply)
    ensures var c := Tally(b, time, r);
            && c.expected == b.expected && c.bootingCount == b.bootingCount && c.sleepingCount == b.sleepingCount
            && (forall x :: x in c.responded <==>
                  x in b.responded || (x == r.agent && r.step == time && x in b.expected))
            && (forall x :: x in c.shutdownReplied <==>
                  x in b.shutdownReplied || (x == r.agent && r.step == time && r.action == Shutdown))
            && (r.step != time ==> c == b)
  {
  }

  lemma {:induction false} FirstAnswerIsAnswer(rs: seq<Reply>, a: AgentId, time: int)
    ensures FirstAnswer(rs, a, time).Some? <==> Answered(rs, a, time)
  {
    if rs != [] {
      var n := |rs| - 1;
      FirstAnswerIsAnswer(rs[..n], a, time);
      assert rs == rs[..n] + [rs[n]];
      SnocAnswers(rs[..n], rs[n], a, time);
    }
  }

  /** Whether `r`, coming after `rs`, is the first current reply of an expected agent. */
  predicate Counts(expected: set<AgentId>, rs: seq<Reply>, time: int, r: Reply) {
    r.step == time && r.agent in expected && !Answered(rs, r.agent, time)
  }

  lemma AnswerSnoc(rs: seq<Reply>, time: int, r: Reply, a: AgentId)
    ensures FirstAnswer(rs + [r], a, time)
         == if !Answered(rs, a, time) && r.agent == a && r.step == time then Some(r) else FirstAnswer(rs, a, time)
  {
    assert (rs + [r])[..|rs|] == rs;
    FirstAnswerIsAnswer(rs, a, time);
  }

  lemma SetGrows(expected: set<AgentId>, rs: seq<Reply>, time: int, r: Reply)
    ensures var isNew := Counts(expected, rs, time, r);
            AnsweredSet(expected, rs + [r], time)
            == AnsweredSet(expected, rs, time) + (if isNew then {r.agent} else {})
  {
    forall a
      ensures Answered(rs + [r], a, time) <==> Answered(rs, a, time) || (r.agent == a && r.step == time)
    {
      SnocAnswers(rs, r, a, time);
    }
  }

  lemma AsGrows(expected: set<AgentId>, rs: seq<Reply>, time: int, r: Reply, x: Action)
    ensures |AnsweredAs(expected, rs + [r], time, x)|
         == |AnsweredAs(expected, rs, time, x)| + (if Counts(expected, rs, time, r) && r.action == x then 1 else 0)
  {
    var was, now := AnsweredAs(expected, rs, time, x), AnsweredAs(expected, rs + [r], time, x);
    var grows := Counts(expected, rs, time, r) && r.action == x;
    forall a
      ensures a in now <==> a in was || (grows && a == r.agent)
      ensures grows ==> r.agent !in was
    {
      AnswerSnoc(rs, time, r, a);
      FirstAnswerIsAnswer(rs, a, time);
      FirstAnswerIsAnswer(rs, r.agent, time);
    }
    assert now == was + (if grows then {r.agent} else {});
  }

  lemma SteppedGrows(expected: set<AgentId>, rs: seq<Reply>, time: int, r: Reply)
    ensures |Stepped(expected, rs + [r], time)|
         == |Stepped(expected, rs, time)| + (if Counts(expected, rs, time, r) && r.didStep then 1 else 0)
  {
    var was, now := Stepped(expected, rs, time), Stepped(expected, rs + [r], time);
    var grows := Counts(expected, rs, time, r) && r.didStep;
    forall a
      ensures a in now <==> a in was || (grows && a == r.agent)
      ensures grows ==> r.agent !in was
    {
      AnswerSnoc(rs, time, r, a);
      FirstAnswerIsAnswer(rs, a, time);
      FirstAnswerIsAnswer(rs, r.agent, time);
    }
    assert now == was + (if grows then {r.agent} else {});
  }

  ghost predicate Recounted(b: Barrier, expected: set<AgentId>, time: int, rs: seq<Reply>) {
    && b.expected == expected
    && b.responded == AnsweredSet(expected, rs, time)
    && b.outstanding == |expected| - |b.responded|
    && (forall x :: Count(b.reactions, x) == |AnsweredAs(expected, rs, time, x)|)
    && b.didStepCount == |Stepped(expected, rs, time)|
    && (forall a :: a in b.shutdownReplied <==> Quit(rs, a, time))
  }

  /** The incremental counters are exactly the recount of the replies received, whatever arrives. */
  lemma {:induction false} TallyIsRecount(base: Baseline, time: int, rs: seq<Reply>)
    ensures Recounted(TallyAll(Reset(base), time, rs), base.expected, time, rs)
  {
    if rs == [] {
      assert forall x :: AnsweredAs(base.expected, rs, time, x) == {};
      assert Stepped(base.expected, rs, time) == {};
      assert AnsweredSet(base.expected, rs, time) == {};
    } else {
      var n := |rs| - 1;
      TallyIsRecount(base, time, rs[..n]);
      assert rs == rs[..n] + [rs[n]];
      RecountStep(TallyAll(Reset(base), time, rs[..n]), base.expected, time, rs[..n], rs[n]);
    }
  }

  lemma TallyCounts(b: Barrier, expected: set<AgentId>, time: int, rs: seq<Reply>, r: Reply)
    requires b.expected == expected && b.responded == AnsweredSet(expected, rs, time)
    ensures var c := Tally(b, time, r);
            var isNew := Counts(expected, rs, time, r);
            && c.responded == b.responded + (if isNew then {r.agent} else {})
            && c.outstanding == b.outstanding - (if isNew then 1 else 0)
            && c.didStepCount == b.didStepCount + (if isNew && r.didStep then 1 else 0)
            && (forall x :: Count(c.reactions, x) == Count(b.reactions, x) + (if isNew && r.action == x then 1 else 0))
  {
    var c := Tally(b, time, r);
    if Counts(expected, rs, time, r) {
      assert c.reactions == b.reactions[r.action := Count(b.reactions, r.action) + 1];
    } else {
      assert c.responded == b.responded;
      assert c.reactions == b.reactions;
    }
  }

  lemma RecountStep(b: Barrier, expected: set<AgentId>, time: int, rs: seq<Reply>, r: Reply)
    requires Recounted(b, expected, time, rs)
    ensures Recounted(Tally(b, time, r), expected, time, rs + [r])
  {
    TallyFields(b, time, r);
    TallyCounts(b, expected, time, rs, r);
    SetGrows(expected, rs, time, r);
    SteppedGrows(expected, rs, time, r);
    forall x
      ensures Count(Tally(b, time, r).reactions, x) == |AnsweredAs(expected, rs + [r], time, x)|
    {
      AsGrows(expected, rs, time, r, x);
    }
    forall a
      ensures Quit(rs + [r], a, time)
          <==> Quit(rs, a, time) || (r.agent == a && r.step == time && r.action == Shutdown)
    {
      SnocAnswers(rs, r, a, time);
    }
  }

  lemma {:induction false} TallyOkAll(base: Baseline, time: int, rs: seq<Reply>)
    ensures TallyOk(TallyAll(Reset(base), time, rs))
  {
    if rs == [] {
      assert Total(map[]) == 0;
    } else {
      TallyOkAll(base, time, rs[..|rs| - 1]);
      TallyKeepsCount(TallyAll(Reset(base), time, rs[..|rs| - 1]), time, rs[|rs| - 1]);
    }
  }

  /** Replies for other steps leave the barrier alone. */
  lemma {:induction false} StragglersIgnored(b: Barrier, time: int, rs: seq<Reply>)
    requires forall r :: r in rs ==> r.step != time
    ensures TallyAll(b, time, rs) == b
  {
    if rs != [] {
      StragglersIgnored(b, time, rs[..|rs| - 1]);
    }
  }

  // ---------------------------------------------------------------- the ledger

  function Ledger(naps: Naps, a: AgentId): Option<Wake> {
    if a in naps.until then Some(naps.until[a]) else None
  }

  // ---------------------------------------------------------------- the stash

  /** No key occurs twice. */
  predicate Unique(st: Stash) {
    st == [] || (Find(st[1..], st[0].0).None? && Unique(st[1..]))
  }

  lemma {:induction false} PopFacts(st: Stash, a: AgentId, b: AgentId)
    requires Unique(st)
    ensures Unique(StashPop(st, a))
    ensures Find(StashPop(st, a), b) == if b == a then None else Find(st, b)
    ensures |StashPop(st, a)| <= |st|
  {
    if st != [] && st[0].0 != a {
      var popped := StashPop(st, a);
      assert popped[1..] == StashPop(st[1..], a);
      PopFacts(st[1..], a, st[0].0);
      PopFacts(st[1..], a, b);
    }
  }

  lemma {:induction false} PutFacts(st: Stash, a: AgentId, e: Entry, b: AgentId)
    requires Unique(st)
    ensures Unique(StashPut(st, a, e))
    ensures Find(StashPut(st, a, e), b) == if b == a then Some(e) else Find(st, b)
  {
    var put := StashPut(st, a, e);
    if st == [] {
      assert put[1..] == [];
    } else if st[0].0 == a {
      assert put[1..] == st[1..];
    } else {
      assert put[1..] == StashPut(st[1..], a, e);
      PutFacts(st[1..], a, e, st[0].0);
      PutFacts(st[1..], a, e, b);
    }
  }

  /** A key that is not there yet goes to the end. */
  lemma {:induction false} PutAppends(st: Stash, a: AgentId, e: Entry)
    requires Find(st, a).None?
    ensures StashPut(st, a, e) == st + [(a, e)]
  {
    if st != [] {
      PutAppends(st[1..], a, e);
      assert st == [st[0]] + st[1..];
    }
  }

  lemma {:induction false} TrimFacts(st: Stash, b: AgentId)
    requires Unique(st)
    ensures Unique(StashTrim(st)) && |StashTrim(st)| <= PRUNED_STASH_MAX
    ensures Find(StashTrim(st), b).Some? ==> Find(StashTrim(st), b) == Find(st, b)
  {
    if |st| > PRUNED_STASH_MAX {
      TrimFacts(st[1..], b);
    }
  }

  /** Trimming keeps exactly the newest `PRUNED_STASH_MAX` items. */
  lemma {:induction false} TrimKeepsNewest(st: Stash)
    ensures StashTrim(st) == if |st| <= PRUNED_STASH_MAX then st else st[|st| - PRUNED_STASH_MAX..]
  {
    if |st| > PRUNED_STASH_MAX {
      TrimKeepsNewest(st[1..]);
    }
  }

  // ---------------------------------------------------------------- the roster

  ghost predicate RosterOk(ro: Roster) {
    && Unique(ro.stash)
    && |ro.stash| <= PRUNED_STASH_MAX
    && (forall a :: a in ro.collection ==> Find(ro.stash, a).None?)
  }

  /** The roster after a reply: at most the replying agent is added, and it is booted. */
  lemma ReplyRoster(ro: Roster, r: Reply)
    requires RosterOk(ro)
    ensures var t := MarkBooted(Reinstate(ro, r), r.agent);
            && RosterOk(t)
            && (r.agent in t.collection <==>
                  r.agent in ro.collection || (Restores(r) && Find(ro.stash, r.agent).Some?))
            && (forall a :: a != r.agent ==>
                  && (a in t.collection <==> a in ro.collection)
                  && Find(t.stash, a) == Find(ro.stash, a)
                  && (a in ro.collection ==> t.collection[a] == ro.collection[a]))
            && (r.agent in t.collection ==> !t.collection[r.agent].pendingBoot)
  {
    PopFacts(ro.stash, r.agent, r.agent);
    forall b | b != r.agent
      ensures Find(StashPop(ro.stash, r.agent), b) == Find(ro.stash, b)
    {
      PopFacts(ro.stash, r.agent, b);
    }
  }

  // ---------------------------------------------------------------- the sweep

  /** The roster after the sweep has visited `seen`. */
  ghost predicate ReapedTo(ro: Roster, b: Barrier, t: Roster, seen: set<AgentId>) {
    && RosterOk(t)
    && t.collection == ro.collection - seen
    && (forall a :: Find(t.stash, a).Some? ==>
          Find(t.stash, a) == Find(ro.stash, a)
          || (a in seen && Silent(b, a) && a in ro.collection && Find(t.stash, a) == Some(ro.collection[a])))
  }

  lemma ReapOneStep(ro: Roster, b: Barrier, t: Roster, seen: set<AgentId>, a: AgentId)
    requires RosterOk(ro) && ReapedTo(ro, b, t, seen) && a !in seen
    ensures ReapedTo(ro, b, ReapRoster(t, b, a), seen + {a})
  {
    assert ro.collection - (seen + {a}) == (ro.collection - seen) - {a};
    if a in t.collection {
      var e := t.collection[a];
      if Silent(b, a) {
        var put := StashPut(t.stash, a, e);
        PutFacts(t.stash, a, e, a);
        TrimFacts(put, a);
        forall x
          ensures Find(put, x) == if x == a then Some(e) else Find(t.stash, x)
          ensures Find(StashTrim(put), x).Some? ==> Find(StashTrim(put), x) == Find(put, x)
        {
          PutFacts(t.stash, a, e, x);
          TrimFacts(put, x);
        }
      }
    } else {
      assert ro.collection - (seen + {a}) == ro.collection - seen;
    }
  }

  function Elements(xs: seq<AgentId>): set<AgentId> {
    set a | a in xs
  }

  ghost predicate NoRepeats(xs: seq<AgentId>) {
    forall i, j :: 0 <= i < j < |xs| ==> xs[i] != xs[j]
  }

  lemma {:induction false} ReapAll(s: Sched, order: seq<AgentId>)
    requires RosterOk(s.roster) && NoRepeats(order)
    ensures ReapedTo(s.roster, s.barrier, Reap(s, order).roster, Elements(order))
    ensures Reap(s, order).barrier == s.barrier && Reap(s, order).time == s.time
  {
    if order == [] {
      assert s.roster.collection - {} == s.roster.collection;
    } else {
      var n := |order| - 1;
      ReapAll(s, order[..n]);
      ElementsGrow(order);
      ReapOneStep(s.roster, s.barrier, Reap(s, order[..n]).roster, Elements(order[..n]), order[n]);
    }
  }

  lemma ElementsGrow(order: seq<AgentId>)
    requires NoRepeats(order) && order != []
    ensures var n := |order| - 1;
            && Elements(order) == Elements(order[..n]) + {order[n]}
            && order[n] !in Elements(order[..n]) && NoRepeats(order[..n])
  {
    var n := |order| - 1;
    assert order == order[..n] + [order[n]];
  }

  lemma {:induction false} ReapLedger(s: Sched, order: seq<AgentId>, a: AgentId)
    requires RosterOk(s.roster) && NoRepeats(order)
    ensures Ledger(Reap(s, order).naps, a)
         == if a in Elements(order) && a in s.roster.collection then None else Ledger(s.naps, a)
    ensures Reap(s, order).naps.topics.Keys <= s.naps.topics.Keys
  {
    if order != [] {
      var n := |order| - 1;
      ReapLedger(s, order[..n], a);
      ReapAll(s, order[..n]);
      ElementsGrow(order);
    }
  }

  lemma EnumeratesElements(order: seq<AgentId>, xs: set<AgentId>)
    requires Enumerates(order, xs)
    ensures NoRepeats(order) && Elements(order) == xs
  {
  }
}
