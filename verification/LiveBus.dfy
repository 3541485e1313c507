/** The bounded live bus: per run the last events published, read by subscribers through cursors. */
module LiveBus {
  /** A run's name; the empty one is 0. */
  type RunId = nat

  const NO_RUN: RunId := 0

  datatype Event = Event(no: nat, name: nat, payload: nat)

  type Log = seq<Event>

  /** Sequence numbers rise. */
  ghost predicate Rising(log: Log) {
    forall i, j :: 0 <= i < j < |log| ==> log[i].no < log[j].no
  }

  /** The longest suffix that fits. */
  function Tail(log: Log, max: nat): Log {
    if |log| <= max then log else log[|log| - max..]
  }

  function After(log: Log, cursor: int): Log {
    if log == [] then []
    else if log[0].no > cursor then [log[0]] + After(log[1..], cursor)
    else After(log[1..], cursor)
  }

  /** `xs[:limit]`; a negative limit counts from the end. */
  function Cut(xs: Log, limit: int): Log {
    if limit >= 0 then (if |xs| <= limit then xs else xs[..limit])
    else if |xs| + limit <= 0 then []
    else xs[..|xs| + limit]
  }

  /** What one poll returns, from the unbounded log. */
  function Polled(log: Log, max: nat, cursor: int, limit: int): Log {
    Cut(After(Tail(log, max), cursor), limit)
  }

  function NextCursor(out: Log, cursor: int): int {
    if out == [] then cursor else out[|out| - 1].no
  }

  function Of(m: map<RunId, Log>, run: RunId): Log {
    if run in m then m[run] else []
  }

  ghost predicate RunOk(buf: Log, log: Log, no: nat, max: nat) {
    && buf == Tail(log, max) && Rising(log)
    && forall i :: 0 <= i < |log| ==> log[i].no <= no
  }

  ghost predicate AllOk(runs: map<RunId, Log>, logs: map<RunId, Log>, no: nat, max: nat) {
    forall r :: RunOk(Of(runs, r), Of(logs, r), no, max)
  }

  class Bus {
    const max: nat
    var runs: map<RunId, Log>
    var no: nat
    /** Everything published for a run since it was last dropped. */
    ghost var logs: map<RunId, Log>

    /** Every buffer is the longest suffix of its run's log that fits. */
    ghost predicate Valid()
      reads this
    {
      AllOk(runs, logs, no, max)
    }

    constructor (max: nat)
      ensures Valid() && this.max == max && logs == map[] && no == 0
    {
      this.max, runs, no, logs := max, map[], 0, map[];
    }

    method Publish(run: RunId, name: nat, payload: nat)
      requires Valid()
      modifies this
      ensures Valid()
      ensures run == NO_RUN ==> logs == old(logs) && runs == old(runs) && no == old(no)
      ensures run != NO_RUN ==> no == old(no) + 1
      ensures run != NO_RUN ==> logs == old(logs)[run := Of(old(logs), run) + [Event(no, name, payload)]]
    {
      if run == NO_RUN {
        return;
      }
      no := no + 1;
      AppendTo(run, Event(no, name, payload));
    }

    method AppendTo(run: RunId, e: Event)
      requires e.no == no > 0 && AllOk(runs, logs, no - 1, max)
      modifies `runs, `logs
      ensures Valid() && logs == old(logs)[run := Of(old(logs), run) + [e]]
    {
      var buf := Of(runs, run) + [e];
      if |buf| > max {
        buf := buf[1..];
      }
      ghost var log := Of(logs, run) + [e];
      AllGrow(runs, logs, run, buf, e, no, max);
      runs := runs[run := buf];
      logs := logs[run := log];
      assert AllOk(runs, logs, no, max);
    }

    method Since(run: RunId, cursor: int, limit: int) returns (out: Log, next: int)
      requires Valid()
      ensures out == Polled(Of(logs, run), max, cursor, limit) && next == NextCursor(out, cursor)
    {
      var buf := Of(runs, run);
      assert RunOk(buf, Of(logs, run), no, max);
      if buf == [] {
        return [], cursor;
      }
      var found := [];
      var i := |buf|;
      while i > 0
        invariant 0 <= i <= |buf| && found == After(buf[i..], cursor)
      {
        i := i - 1;
        assert buf[i..][1..] == buf[i + 1..];
        if buf[i].no > cursor {
          found := [buf[i]] + found;
        }
      }
      assert buf[0..] == buf;
      out := if limit >= 0 then (if |found| <= limit then found else found[..limit])
             else if |found| + limit <= 0 then [] else found[..|found| + limit];
      next := if out == [] then cursor else out[|out| - 1].no;
    }

    method Head(run: RunId) returns (head: nat)
      requires Valid()
      ensures max > 0 ==> head == if Of(logs, run) == [] then 0 else Of(logs, run)[|Of(logs, run)| - 1].no
      ensures max == 0 ==> head == 0
    {
      var buf := Of(runs, run);
      assert RunOk(buf, Of(logs, run), no, max);
      head := if buf == [] then 0 else buf[|buf| - 1].no;
    }

    method Drop(run: RunId)
      requires Valid()
      modifies this
      ensures Valid() && no == old(no) && logs == old(logs) - {run}
    {
      runs := runs - {run};
      logs := logs - {run};
      forall r
        ensures RunOk(Of(runs, r), Of(logs, r), no, max)
      {
        assert RunOk(Of(old(runs), r), Of(old(logs), r), no, max);
      }
    }
  }

  /** Appending and dropping the oldest keeps the buffer the longest suffix that fits. */
  lemma RunGrows(buf: Log, log: Log, no: nat, max: nat, e: Event)
    requires RunOk(buf, log, no, max) && e.no == no + 1
    ensures RunOk(if |buf| + 1 > max then (buf + [e])[1..] else buf + [e], log + [e], no + 1, max)
  {
    TailGrows(log, max, e);
  }

  lemma TailGrows(log: Log, max: nat, e: Event)
    ensures var buf := Tail(log, max) + [e];
            Tail(log + [e], max) == if |buf| > max then buf[1..] else buf
  {
    if |log| >= max {
      var skip := |log| - max;
      assert (log[skip..] + [e])[1..] == (log + [e])[skip + 1..];
    }
  }

  lemma OneChanged(runs: map<RunId, Log>, logs: map<RunId, Log>, run: RunId, buf: Log, log: Log, no: nat, max: nat)
    requires RunOk(buf, log, no, max)
    requires forall r :: r != run ==> RunOk(Of(runs, r), Of(logs, r), no, max)
    ensures AllOk(runs[run := buf], logs[run := log], no, max)
  {
    var newRuns, newLogs := runs[run := buf], logs[run := log];
    forall r
      ensures RunOk(Of(newRuns, r), Of(newLogs, r), no, max)
    {
      if r != run {
        assert RunOk(Of(runs, r), Of(logs, r), no, max);
      }
    }
  }

  /** One run's buffer and log grow by `e`; the others stay. */
  lemma AllGrow(runs: map<RunId, Log>, logs: map<RunId, Log>, run: RunId, buf: Log, e: Event, no: nat, max: nat)
    requires e.no == no > 0 && AllOk(runs, logs, no - 1, max)
    requires var longer := Of(runs, run) + [e]; buf == if |longer| > max then longer[1..] else longer
    ensures AllOk(runs[run := buf], logs[run := Of(logs, run) + [e]], no, max)
  {
    var log := Of(logs, run) + [e];
    RunGrows(Of(runs, run), Of(logs, run), no - 1, max, e);
    assert RunOk(buf, log, no, max);
    forall r | r != run
      ensures RunOk(Of(runs, r), Of(logs, r), no, max)
    {
      StillOk(Of(runs, r), Of(logs, r), no - 1, max);
    }
    OneChanged(runs, logs, run, buf, log, no, max);
  }

  lemma StillOk(buf: Log, log: Log, no: nat, max: nat)
    requires RunOk(buf, log, no, max)
    ensures RunOk(buf, log, no + 1, max)
  {
  }

  // ---------------------------------------------------------------- one poll

  /** How many events of the log lie at or before the cursor. */
  function Place(log: Log, cursor: int): (p: nat)
    ensures p <= |log|
  {
    if log == [] || log[0].no > cursor then 0 else 1 + Place(log[1..], cursor)
  }

  lemma {:induction false} PlaceFacts(log: Log, cursor: int)
    requires Rising(log)
    ensures forall i :: 0 <= i < Place(log, cursor) ==> log[i].no <= cursor
    ensures forall i :: Place(log, cursor) <= i < |log| ==> log[i].no > cursor
  {
    if log != [] {
      PlaceFacts(log[1..], cursor);
      forall i | Place(log, cursor) <= i < |log|
        ensures log[i].no > cursor
      {
        if log[0].no <= cursor {
          assert log[1..][i - 1] == log[i];
        }
      }
      forall i | 0 <= i < Place(log, cursor)
        ensures log[i].no <= cursor
      {
        assert i > 0 ==> log[1..][i - 1] == log[i];
      }
    }
  }

  lemma {:induction false} AfterIsSlice(log: Log, cursor: int, p: nat)
    requires p <= |log|
    requires forall i :: 0 <= i < p ==> log[i].no <= cursor
    requires forall i :: p <= i < |log| ==> log[i].no > cursor
    ensures After(log, cursor) == log[p..]
  {
    if log != [] {
      AfterIsSlice(log[1..], cursor, if p == 0 then 0 else p - 1);
    }
  }

  /** Where a poll starts reading: after the cursor, and not before the buffer. */
  function From(log: Log, max: nat, cursor: int): (a: nat)
    ensures a <= |log|
  {
    var unread := Place(log, cursor);
    if |log| > max && |log| - max > unread then |log| - max else unread
  }

  /** A poll reads one stretch of the log, from the first event still there. */
  lemma PollIsSlice(log: Log, max: nat, cursor: int, limit: int)
    requires Rising(log)
    ensures var a := From(log, max, cursor);
            var out := Polled(log, max, cursor, limit);
            a + |out| <= |log| && out == log[a..a + |out|]
  {
    var a := From(log, max, cursor);
    UnreadIsSuffix(log, max, cursor);
    CutIsPrefix(log[a..], limit);
    SliceOfSuffix(log, a, |Cut(log[a..], limit)|);
  }

  lemma CutIsPrefix(xs: Log, limit: int)
    ensures |Cut(xs, limit)| <= |xs| && Cut(xs, limit) == xs[..|Cut(xs, limit)|]
  {
  }

  lemma SliceOfSuffix(log: Log, a: nat, n: nat)
    requires a <= |log| && n <= |log| - a
    ensures log[a..][..n] == log[a..a + n]
  {
  }

  lemma UnreadIsSuffix(log: Log, max: nat, cursor: int)
    requires Rising(log)
    ensures After(Tail(log, max), cursor) == log[From(log, max, cursor)..]
  {
    var a, skip := From(log, max, cursor), |log| - |Tail(log, max)|;
    PlaceFacts(log, cursor);
    SuffixAfter(log, skip, a, cursor);
  }

  lemma SuffixAfter(log: Log, skip: nat, a: nat, cursor: int)
    requires skip <= a <= |log|
    requires forall i :: skip <= i < a ==> log[i].no <= cursor
    requires forall i :: a <= i < |log| ==> log[i].no > cursor
    ensures After(log[skip..], cursor) == log[a..]
  {
    AfterIsSlice(log[skip..], cursor, a - skip);
  }

  // ---------------------------------------------------------------- a subscriber

  /** A visit: what has been published by then, and the limit asked for. */
  datatype Visit = Visit(log: Log, limit: int)

  /** The visits are to one growing log. */
  ghost predicate Growing(visits: seq<Visit>, log: Log) {
    Rising(log) && forall i :: 0 <= i < |visits| ==> visits[i].log <= log
  }

  /** The cursor after the visits, each fed the cursor the one before returned. */
  function Cursor(visits: seq<Visit>, max: nat, start: int): int
    decreases |visits|, 1
  {
    if visits == [] then start
    else NextCursor(LastPoll(visits, max, start), Cursor(visits[..|visits| - 1], max, start))
  }

  function LastPoll(visits: seq<Visit>, max: nat, start: int): Log
    requires visits != []
    decreases |visits|, 0
  {
    var n := |visits| - 1;
    Polled(visits[n].log, max, Cursor(visits[..n], max, start), visits[n].limit)
  }

  function Received(visits: seq<Visit>, max: nat, start: int): Log {
    if visits == [] then []
    else Received(visits[..|visits| - 1], max, start) + LastPoll(visits, max, start)
  }

  /** The place in the log of each event received. */
  function Places(visits: seq<Visit>, max: nat, start: int): seq<nat> {
    if visits == [] then []
    else
      var n := |visits| - 1;
      var a := From(visits[n].log, max, Cursor(visits[..n], max, start));
      Places(visits[..n], max, start) + Range(a, |LastPoll(visits, max, start)|)
  }

  function Range(a: nat, n: nat): (r: seq<nat>)
    ensures |r| == n && forall i :: 0 <= i < n ==> r[i] == a + i
  {
    seq(n, i requires 0 <= i => a + i)
  }

  /** At visit `i`, place `p` was published, unread, and already out of the buffer. */
  predicate EvictedUnreadAt(visits: seq<Visit>, max: nat, start: int, p: nat, i: nat)
    requires i < |visits|
  {
    && p < |visits[i].log| - max
    && visits[i].log[p].no > Cursor(visits[..i], max, start)
  }

  ghost predicate Subsequence(got: Log, places: seq<nat>, log: Log, start: int, cursor: int) {
    && |places| == |got|
    && (forall k :: 0 <= k < |got| ==> places[k] < |log| && got[k] == log[places[k]] && start < got[k].no <= cursor)
    && (forall k, l :: 0 <= k < l < |got| ==> places[k] < places[l])
  }

  ghost predicate OnlyEvictedMissing(visits: seq<Visit>, max: nat, start: int, places: seq<nat>, log: Log,
                                     cursor: int) {
    forall p :: 0 <= p < |log| && start < log[p].no <= cursor && p !in places ==>
      exists i :: 0 <= i < |visits| && EvictedUnreadAt(visits, max, start, p, i)
  }

  /** Whatever the limits, a subscriber gets events of its run in order, none twice, and has missed
      only events that were evicted before it read them. */
  lemma {:induction false} SubscriberSees(visits: seq<Visit>, max: nat, start: int, log: Log)
    requires Growing(visits, log)
    ensures var cursor := Cursor(visits, max, start);
            var places := Places(visits, max, start);
            && cursor >= start
            && Subsequence(Received(visits, max, start), places, log, start, cursor)
            && OnlyEvictedMissing(visits, max, start, places, log, cursor)
  {
    if visits != [] {
      var n := |visits| - 1;
      SubscriberSees(visits[..n], max, start, log);
      OneMoreVisit(visits, max, start, log);
      OneMoreMissing(visits, max, start, log);
    }
  }

  lemma OneMoreVisit(visits: seq<Visit>, max: nat, start: int, log: Log)
    requires Growing(visits, log) && visits != []
    requires var before := visits[..|visits| - 1];
             && Cursor(before, max, start) >= start
             && Subsequence(Received(before, max, start), Places(before, max, start), log, start,
                            Cursor(before, max, start))
    ensures Cursor(visits, max, start) >= Cursor(visits[..|visits| - 1], max, start)
    ensures Subsequence(Received(visits, max, start), Places(visits, max, start), log, start,
                        Cursor(visits, max, start))
  {
    var n := |visits| - 1;
    var here, was := visits[n].log, Cursor(visits[..n], max, start);
    LastPollIsSlice(visits, max, start, log);
    var a, out := From(here, max, was), LastPoll(visits, max, start);
    PolledAreUnread(here, log, max, was, |out|);
    AppendStretch(Received(visits[..n], max, start), Places(visits[..n], max, start), log, start, was,
                  a, out, Cursor(visits, max, start));
  }

  lemma PolledAreUnread(here: Log, log: Log, max: nat, was: int, n: nat)
    requires Rising(log) && here <= log && From(here, max, was) + n <= |here|
    ensures var a := From(here, max, was);
            log[a..a + n] == here[a..a + n] && forall i :: a <= i < a + n ==> log[i].no > was
  {
    PlaceFacts(here, was);
  }

  lemma AppendStretch(got: Log, places: seq<nat>, log: Log, start: int, was: int, a: nat, out: Log, next: int)
    requires Rising(log) && Subsequence(got, places, log, start, was) && start <= was
    requires a + |out| <= |log| && out == log[a..a + |out|] && next == NextCursor(out, was)
    requires forall i :: a <= i < a + |out| ==> log[i].no > was
    ensures Subsequence(got + out, places + Range(a, |out|), log, start, next) && next >= was
  {
    assert forall i :: 0 <= i < |out| ==> out[i] == log[a + i];
    forall k | 0 <= k < |got| && out != []
      ensures places[k] < a
    {
      assert log[places[k]].no <= was < log[a].no;
    }
  }

  lemma OneMoreMissing(visits: seq<Visit>, max: nat, start: int, log: Log)
    requires Growing(visits, log) && visits != []
    requires var before := visits[..|visits| - 1];
             OnlyEvictedMissing(before, max, start, Places(before, max, start), log, Cursor(before, max, start))
    ensures OnlyEvictedMissing(visits, max, start, Places(visits, max, start), log, Cursor(visits, max, start))
  {
    var n := |visits| - 1;
    var before := visits[..n];
    var was, next := Cursor(before, max, start), Cursor(visits, max, start);
    forall p | 0 <= p < |log| && start < log[p].no <= next && p !in Places(visits, max, start)
      ensures exists i :: 0 <= i < |visits| && EvictedUnreadAt(visits, max, start, p, i)
    {
      if log[p].no <= was {
        StillMissing(visits, max, start, log, p);
      } else {
        NewlyMissing(visits, max, start, log, p);
      }
    }
  }

  lemma StillMissing(visits: seq<Visit>, max: nat, start: int, log: Log, p: nat)
    requires visits != [] && p < |log|
    requires var before := visits[..|visits| - 1];
             && OnlyEvictedMissing(before, max, start, Places(before, max, start), log, Cursor(before, max, start))
             && start < log[p].no <= Cursor(before, max, start)
    requires p !in Places(visits, max, start)
    ensures exists i :: 0 <= i < |visits| && EvictedUnreadAt(visits, max, start, p, i)
  {
    var before := visits[..|visits| - 1];
    assert p !in Places(before, max, start);
    var i :| 0 <= i < |before| && EvictedUnreadAt(before, max, start, p, i);
    assert before[..i] == visits[..i];
    assert EvictedUnreadAt(visits, max, start, p, i);
  }

  lemma LastPollIsSlice(visits: seq<Visit>, max: nat, start: int, log: Log)
    requires Growing(visits, log) && visits != []
    ensures var here := visits[|visits| - 1].log;
            var a := From(here, max, Cursor(visits[..|visits| - 1], max, start));
            var out := LastPoll(visits, max, start);
            a + |out| <= |here| && out == here[a..a + |out|]
  {
    var n := |visits| - 1;
    PollIsSlice(visits[n].log, max, Cursor(visits[..n], max, start), visits[n].limit);
  }

  lemma NewlyMissing(visits: seq<Visit>, max: nat, start: int, log: Log, p: nat)
    requires Growing(visits, log) && visits != [] && p < |log|
    requires Cursor(visits[..|visits| - 1], max, start) < log[p].no <= Cursor(visits, max, start)
    requires p !in Places(visits, max, start)
    ensures EvictedUnreadAt(visits, max, start, p, |visits| - 1)
  {
    var n := |visits| - 1;
    var here, was := visits[n].log, Cursor(visits[..n], max, start);
    var a, out := From(here, max, was), LastPoll(visits, max, start);
    LastPollIsSlice(visits, max, start, log);
    if a <= p < a + |out| {
      Placed(visits, max, start, p);
    }
    assert NextCursor(out, was) == Cursor(visits, max, start);
    SkippedMeansEvicted(here, log, max, was, out, p);
  }

  lemma Placed(visits: seq<Visit>, max: nat, start: int, p: nat)
    requires visits != []
    requires var a := From(visits[|visits| - 1].log, max, Cursor(visits[..|visits| - 1], max, start));
             a <= p < a + |LastPoll(visits, max, start)|
    ensures p in Places(visits, max, start)
  {
    var n := |visits| - 1;
    var a := From(visits[n].log, max, Cursor(visits[..n], max, start));
    InRange(Places(visits[..n], max, start), a, |LastPoll(visits, max, start)|, p);
  }

  lemma InRange(before: seq<nat>, a: nat, n: nat, p: nat)
    requires a <= p < a + n
    ensures p in before + Range(a, n)
  {
    assert (before + Range(a, n))[|before| + (p - a)] == p;
  }

  lemma SkippedMeansEvicted(here: Log, log: Log, max: nat, was: int, out: Log, p: nat)
    requires Rising(log) && here <= log && p < |log|
    requires var a := From(here, max, was);
             a + |out| <= |here| && out == here[a..a + |out|] && !(a <= p < a + |out|)
    requires was < log[p].no <= NextCursor(out, was)
    ensures p < |here| - max && here[p].no > was
  {
    var a := From(here, max, was);
    assert out[|out| - 1] == log[a + |out| - 1];
    PlaceFacts(here, was);
  }

  /** The events published and not yet read at visit `i`. */
  function Unread(visits: seq<Visit>, max: nat, start: int, i: nat): nat
    requires i < |visits|
  {
    |visits[i].log| - Place(visits[i].log, Cursor(visits[..i], max, start))
  }

  lemma NotEvicted(visits: seq<Visit>, max: nat, start: int, p: nat, i: nat)
    requires i < |visits| && Unread(visits, max, start, i) <= max && Rising(visits[i].log)
    ensures !EvictedUnreadAt(visits, max, start, p, i)
  {
    PlaceFacts(visits[i].log, Cursor(visits[..i], max, start));
  }

  /** A subscriber that never has more than `max` events unread misses none: it has got every event
      between its start and its cursor. */
  lemma NeverLaggingMissesNothing(visits: seq<Visit>, max: nat, start: int, log: Log, p: nat)
    requires Growing(visits, log)
    requires forall i :: 0 <= i < |visits| ==> Unread(visits, max, start, i) <= max
    requires p < |log| && start < log[p].no <= Cursor(visits, max, start)
    ensures p in Places(visits, max, start)
  {
    SubscriberSees(visits, max, start, log);
    forall i | 0 <= i < |visits|
      ensures !EvictedUnreadAt(visits, max, start, p, i)
    {
      NotEvicted(visits, max, start, p, i);
    }
  }

  /** A poll without a limit that bites catches up with the head of the log. */
  lemma UnlimitedPollCatchesUp(log: Log, max: nat, cursor: int, limit: int)
    requires Rising(log) && max > 0 && limit >= |log| && log != []
    ensures NextCursor(Polled(log, max, cursor, limit), cursor) >= log[|log| - 1].no
  {
    var rest := log[From(log, max, cursor)..];
    UnreadIsSuffix(log, max, cursor);
    assert Polled(log, max, cursor, limit) == rest;
    PlaceFacts(log, cursor);
  }
}
