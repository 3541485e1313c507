/** The optimistic status write of `SimulationRuntime` against a document with other writers.
    The server rejects a conditional PATCH whose etag is stale with 412 (sections 13.1.1 and 15.5.13
    of RFC 9110). */
module StatusWrite {
  import opened Options

  datatype Status = InProgress | Success

  /** Who made a write: a call of this runtime, or any of the other writers. */
  datatype Writer = Us(call: nat, status: Status) | Them

  datatype Outcome = Ok | RetriedOk | StaleEtagExhausted | ServerError | Exception

  predicate Succeeded(o: Outcome) {
    o == Ok || o == RetriedOk
  }

  const PATCH_MAX_ATTEMPTS: nat := 3
  const TERMINAL_MAX_ATTEMPTS: nat := 3

  /** How a PATCH fares on the network: answered; evaluated but answered unreadably, late or with an
      error status; refused for another reason; never delivered. */
  datatype PatchFate = Answered | LandedThenRaised | LandedThenError | Refused | Lost

  datatype GetFate = GetAnswered | GetRefused | GetLost

  /** What happens around one attempt: other writers before the PATCH and before the GET. */
  datatype Turn = Turn(before: nat, patch: PatchFate, between: nat, get: GetFate)

  datatype Response = Done(etag: nat) | Conflict | BadStatus | Raised

  /** The document as the log of the writes that landed.  Each gives a new etag: version `n` is the
      document after `n` writes. */
  type Log = seq<Writer>

  function Others(log: Log, n: nat): (r: Log)
    ensures |r| == |log| + n && log <= r && forall i :: |log| <= i < |r| ==> r[i] == Them
  {
    if n == 0 then log else Others(log, n - 1) + [Them]
  }

  /** Whether the server applies the PATCH. */
  predicate Lands(log: Log, etag: nat, fate: PatchFate) {
    etag == |log| && (fate == Answered || fate == LandedThenRaised || fate == LandedThenError)
  }

  function PatchLog(log: Log, etag: nat, fate: PatchFate, me: Writer): Log {
    if Lands(log, etag, fate) then log + [me] else log
  }

  function PatchResponse(log: Log, etag: nat, fate: PatchFate): Response {
    match fate
    case Answered => if etag == |log| then Done(|log| + 1) else Conflict
    case LandedThenRaised => Raised
    case LandedThenError => BadStatus
    case Refused => BadStatus
    case Lost => Raised
  }

  class RunConfig {
    var log: Log

    constructor ()
      ensures log == []
    {
      log := [];
    }

    method OtherWriters(n: nat)
      modifies this
      ensures log == Others(old(log), n)
    {
      for i := 0 to n
        invariant log == Others(old(log), i)
      {
        log := log + [Them];
      }
    }

    method Patch(etag: nat, fate: PatchFate, me: Writer) returns (r: Response)
      modifies this
      ensures log == PatchLog(old(log), etag, fate, me)
      ensures r == PatchResponse(old(log), etag, fate)
    {
      r := match fate
        case Answered => if etag == |log| then Done(|log| + 1) else Conflict
        case LandedThenRaised => Raised
        case LandedThenError => BadStatus
        case Refused => BadStatus
        case Lost => Raised;
      if etag == |log| && fate != Refused && fate != Lost {
        log := log + [me];
      }
    }
  }

  // ---------------------------------------------------------------- what a log says

  /** Exactly one write by `call`, the one that made version `etag`. */
  ghost predicate OnlyVersion(log: Log, call: nat, status: Status, etag: nat) {
    && 0 < etag <= |log| && log[etag - 1] == Us(call, status)
    && forall i :: 0 <= i < |log| && i != etag - 1 ==> log[i].Us? ==> log[i].call != call
  }

  /** Calls are numbered; none of them is from the future. */
  ghost predicate CallsBelow(log: Log, calls: nat) {
    forall i :: 0 <= i < |log| ==> log[i].Us? ==> log[i].call < calls
  }

  function OwnWrites(log: Log): nat {
    if log == [] then 0
    else OwnWrites(log[..|log| - 1]) + (if log[|log| - 1].Us? then 1 else 0)
  }

  /** The status a reader of the document finds: the last one this runtime wrote. */
  function StatusOf(log: Log): Option<Status> {
    if log == [] then None
    else if log[|log| - 1].Us? then Some(log[|log| - 1].status)
    else StatusOf(log[..|log| - 1])
  }

  lemma {:induction false} OthersWriteNothingOfOurs(log: Log, n: nat)
    ensures OwnWrites(Others(log, n)) == OwnWrites(log) && StatusOf(Others(log, n)) == StatusOf(log)
  {
    if n > 0 {
      OthersWriteNothingOfOurs(log, n - 1);
      assert Others(log, n)[..|Others(log, n)| - 1] == Others(log, n - 1);
    }
  }

  lemma OneMore(log: Log, me: Writer)
    requires me.Us?
    ensures OwnWrites(log + [me]) == OwnWrites(log) + 1 && StatusOf(log + [me]) == Some(me.status)
  {
    assert (log + [me])[..|log|] == log;
  }

  // ---------------------------------------------------------------- one update

  /** What a call has done to the document: nothing (all its calls are older ones), or one write. */
  ghost predicate Untouched(before: Log, log: Log, call: nat) {
    && before <= log && CallsBelow(log, call)
    && OwnWrites(log) == OwnWrites(before) && StatusOf(log) == StatusOf(before)
  }

  ghost predicate WroteOnce(before: Log, log: Log, call: nat, status: Status, etag: nat) {
    && before <= log && OnlyVersion(log, call, status, etag) && |before| < etag && CallsBelow(log, call + 1)
    && OwnWrites(log) == OwnWrites(before) + 1 && StatusOf(log) == Some(status)
  }

  ghost predicate AtMostOneWrite(before: Log, log: Log, call: nat, status: Status) {
    Untouched(before, log, call) || exists e :: WroteOnce(before, log, call, status, e)
  }

  lemma CompetitorsUntouched(before: Log, log: Log, call: nat, n: nat)
    requires Untouched(before, log, call)
    ensures Untouched(before, Others(log, n), call)
  {
    OthersWriteNothingOfOurs(log, n);
  }

  lemma StillBelow(log: Log, calls: nat)
    requires CallsBelow(log, calls)
    ensures CallsBelow(log, calls + 1)
  {
  }

  lemma PatchEffect(before: Log, log: Log, etag: nat, fate: PatchFate, call: nat, status: Status)
    requires Untouched(before, log, call) && etag <= |log|
    ensures var after := PatchLog(log, etag, fate, Us(call, status));
            if Lands(log, etag, fate) then WroteOnce(before, after, call, status, etag + 1)
            else Untouched(before, after, call)
  {
    OneMore(log, Us(call, status));
  }

  class StatusWriter {
    const doc: RunConfig
    /** The etag of the kept record. */
    var etag: nat
    var calls: nat
    ghost var history: seq<Outcome>
    var failures: nat
    var outcomes: map<Outcome, nat>
    var consecutive: nat
    var terminal: Option<Outcome>

    ghost predicate Valid()
      reads this, doc
    {
      && etag <= |doc.log| && CallsBelow(doc.log, calls)
      && Ledger(history, failures, outcomes, consecutive)
    }

    constructor (doc: RunConfig, etag: nat)
      requires etag <= |doc.log| && CallsBelow(doc.log, 0)
      ensures Valid() && this.doc == doc && this.etag == etag && history == []
    {
      this.doc, this.etag, calls, history := doc, etag, 0, [];
      failures, outcomes, consecutive, terminal := 0, map[], 0, None;
    }

    /** One conditional PATCH, after whatever the other writers did first. */
    method TryPatch(ghost base: Log, tag: nat, turn: Turn, call: nat, status: Status) returns (r: Response)
      requires Untouched(base, doc.log, call) && tag <= |doc.log|
      modifies doc
      ensures r.Done? ==> r.etag == tag + 1 && WroteOnce(base, doc.log, call, status, tag + 1)
      ensures r.Conflict? ==> Untouched(base, doc.log, call) && tag < |doc.log|
      ensures AtMostOneWrite(base, doc.log, call, status)
      ensures tag <= |doc.log|
    {
      CompetitorsUntouched(base, doc.log, call, turn.before);
      doc.OtherWriters(turn.before);
      PatchEffect(base, doc.log, tag, turn.patch, call, status);
      r := doc.Patch(tag, turn.patch, Us(call, status));
    }

    /** The GET that refreshes the etag. */
    method Refresh(ghost base: Log, turn: Turn, call: nat) returns (r: Response)
      requires Untouched(base, doc.log, call)
      modifies doc
      ensures Untouched(base, doc.log, call) && |doc.log| >= old(|doc.log|)
      ensures !r.Conflict? && (r.Done? ==> r.etag == |doc.log|)
    {
      CompetitorsUntouched(base, doc.log, call, turn.between);
      doc.OtherWriters(turn.between);
      r := match turn.get
        case GetAnswered => Done(|doc.log|)
        case GetRefused => BadStatus
        case GetLost => Raised;
    }

    /** `fetched` is the kept record's new etag; it is None exactly when the call did not succeed. */
    method UpdateStatus(status: Status, env: nat -> Turn)
      returns (fetched: Option<nat>, outcome: Outcome, ghost patches: nat, ghost gets: nat)
      requires Valid()
      modifies doc, `calls
      ensures etag <= |doc.log| && calls == old(calls) + 1
      ensures patches <= 3 && gets <= 2
      ensures fetched.Some? <==> Succeeded(outcome)
      ensures Succeeded(outcome)
              ==> fetched.value <= |doc.log|
                  && WroteOnce(old(doc.log), doc.log, old(calls), status, fetched.value)
      ensures outcome == Ok ==> fetched.value == etag + 1
      ensures outcome == RetriedOk ==> fetched.value >= etag + 2
      ensures outcome == StaleEtagExhausted
              ==> patches == 3 && Untouched(old(doc.log), doc.log, old(calls)) && |doc.log| >= etag + 3
      ensures !Succeeded(outcome)
              ==> AtMostOneWrite(old(doc.log), doc.log, old(calls), status)
    {
      fetched, outcome, patches, gets := None, Exception, 0, 0;
      var call := calls;
      calls := calls + 1;
      var tag := etag;
      var attempt := 1;
      while attempt <= PATCH_MAX_ATTEMPTS
        invariant 1 <= attempt <= PATCH_MAX_ATTEMPTS
        invariant patches == attempt - 1 && gets == attempt - 1
        invariant calls == call + 1 && Untouched(old(doc.log), doc.log, call)
        invariant etag + attempt - 1 <= tag <= |doc.log| && (attempt == 1 ==> tag == etag)
        decreases PATCH_MAX_ATTEMPTS - attempt
      {
        var turn := env(attempt);
        var response := TryPatch(old(doc.log), tag, turn, call, status);
        patches := patches + 1;
        if response.Done? {
          return Some(response.etag), if attempt == 1 then Ok else RetriedOk, patches, gets;
        }
        if response.BadStatus? {
          return None, ServerError, patches, gets;
        }
        if response.Raised? {
          return None, Exception, patches, gets;
        }
        if attempt == PATCH_MAX_ATTEMPTS {
          break;
        }
        var latest := Refresh(old(doc.log), turn, call);
        gets := gets + 1;
        if !latest.Done? {
          return None, if latest.BadStatus? then ServerError else Exception, patches, gets;
        }
        tag := latest.etag;
        attempt := attempt + 1;
      }
      outcome := StaleEtagExhausted;
    }

    method RecordStatusWrite(outcome: Outcome)
      requires Ledger(history, failures, outcomes, consecutive)
      modifies `history, `failures, `outcomes, `consecutive
      ensures Ledger(history, failures, outcomes, consecutive) && history == old(history) + [outcome]
    {
      LedgerGrows(history, failures, outcomes, consecutive, outcome);
      outcomes := outcomes[outcome := Get(outcomes, outcome) + 1];
      if Succeeded(outcome) {
        consecutive := 0;
      } else {
        failures := failures + 1;
        consecutive := consecutive + 1;
      }
      history := history + [outcome];
      assert failures == if Succeeded(outcome) then old(failures) else old(failures) + 1;
      assert consecutive == if Succeeded(outcome) then 0 else old(consecutive) + 1;
      assert Ledger(history, failures, outcomes, consecutive);
    }

    /** A write and its record: the kept etag moves exactly when this call's write landed and was
        acknowledged, and then it is that write's. */
    method WriteStatus(status: Status, env: nat -> Turn) returns (outcome: Outcome)
      requires Valid()
      modifies doc, `calls, `etag, `history, `failures, `outcomes, `consecutive
      ensures Valid() && calls == old(calls) + 1 && history == old(history) + [outcome]
      ensures old(doc.log) <= doc.log
      ensures if Succeeded(outcome) then WroteOnce(old(doc.log), doc.log, old(calls), status, etag)
              else etag == old(etag)
      ensures outcome == StaleEtagExhausted
              ==> Untouched(old(doc.log), doc.log, old(calls)) && |doc.log| >= old(etag) + 3
      ensures OwnWrites(doc.log) == OwnWrites(old(doc.log)) + 1
              || (OwnWrites(doc.log) == OwnWrites(old(doc.log)) && !Succeeded(outcome))
    {
      var fetched;
      ghost var patches, gets;
      fetched, outcome, patches, gets := UpdateStatus(status, env);
      StillBelowAfter(old(doc.log), doc.log, old(calls), status);
      RecordStatusWrite(outcome);
      if Succeeded(outcome) {
        etag := fetched.value;
      }
    }

    /** The terminal write: up to three calls, until one succeeds.  `published` is the terminal
        run_status sent when all fail. */
    method WriteTerminalStatus(env: nat -> nat -> Turn) returns (outcome: Outcome, published: bool, ghost tries: nat)
      requires Valid()
      modifies this, doc
      ensures Valid() && terminal == Some(outcome)
      ensures 1 <= tries <= 3 && |history| == |old(history)| + tries && old(history) <= history
      ensures history[|history| - 1] == outcome
      ensures forall i :: |old(history)| <= i < |history| - 1 ==> !Succeeded(history[i])
      ensures Succeeded(outcome) ==> StatusOf(doc.log) == Some(Success)
      ensures published <==> !Succeeded(outcome)
      ensures published ==> tries == 3
    {
      outcome, published, tries := Exception, false, 0;
      var attempt := 1;
      while attempt <= TERMINAL_MAX_ATTEMPTS
        invariant Valid() && 1 <= attempt <= TERMINAL_MAX_ATTEMPTS + 1 && tries == attempt - 1
        invariant |history| == |old(history)| + tries && old(history) <= history
        invariant forall i :: |old(history)| <= i < |history| ==> !Succeeded(history[i])
        invariant tries > 0 ==> history[|history| - 1] == outcome
        decreases TERMINAL_MAX_ATTEMPTS + 1 - attempt
      {
        outcome := WriteStatus(Success, env(attempt));
        tries := tries + 1;
        if Succeeded(outcome) {
          terminal := Some(outcome);
          return;
        }
        attempt := attempt + 1;
      }
      terminal := Some(outcome);
      published := true;
    }
  }

  lemma StillBelowAfter(before: Log, log: Log, call: nat, status: Status)
    requires AtMostOneWrite(before, log, call, status)
    ensures CallsBelow(log, call + 1)
  {
    if Untouched(before, log, call) {
      StillBelow(log, call);
    }
  }

  // ---------------------------------------------------------------- the ledger of outcomes

  function CountOf(history: seq<Outcome>, o: Outcome): nat {
    if history == [] then 0
    else CountOf(history[..|history| - 1], o) + (if history[|history| - 1] == o then 1 else 0)
  }

  function TrailingFailures(history: seq<Outcome>): nat {
    if history == [] || Succeeded(history[|history| - 1]) then 0
    else TrailingFailures(history[..|history| - 1]) + 1
  }

  function FailureCount(history: seq<Outcome>): nat {
    if history == [] then 0
    else FailureCount(history[..|history| - 1]) + (if Succeeded(history[|history| - 1]) then 0 else 1)
  }

  function Get(m: map<Outcome, nat>, o: Outcome): nat {
    if o in m then m[o] else 0
  }

  /** Every outcome is counted as often as it occurred. */
  ghost predicate Counted(history: seq<Outcome>, outcomes: map<Outcome, nat>) {
    forall o :: Get(outcomes, o) == CountOf(history, o)
  }

  ghost predicate Ledger(history: seq<Outcome>, failures: nat, outcomes: map<Outcome, nat>, consecutive: nat) {
    && failures == FailureCount(history)
    && Counted(history, outcomes)
    && consecutive == TrailingFailures(history)
  }

  lemma CountsGrow(history: seq<Outcome>, outcomes: map<Outcome, nat>, outcome: Outcome)
    requires Counted(history, outcomes)
    ensures Counted(history + [outcome], outcomes[outcome := Get(outcomes, outcome) + 1])
  {
    var more := outcomes[outcome := Get(outcomes, outcome) + 1];
    assert (history + [outcome])[..|history|] == history;
    forall o
      ensures Get(more, o) == CountOf(history + [outcome], o)
    {
      assert Get(more, o) == Get(outcomes, o) + (if o == outcome then 1 else 0);
    }
  }

  lemma LedgerGrows(history: seq<Outcome>, failures: nat, outcomes: map<Outcome, nat>, consecutive: nat,
                    outcome: Outcome)
    requires Ledger(history, failures, outcomes, consecutive)
    ensures Ledger(history + [outcome], if Succeeded(outcome) then failures else failures + 1,
                   outcomes[outcome := Get(outcomes, outcome) + 1], if Succeeded(outcome) then 0 else consecutive + 1)
  {
    CountsGrow(history, outcomes, outcome);
    assert (history + [outcome])[..|history|] == history;
  }

  /** The failure counter is the sum of the counts of the failing outcomes. */
  lemma {:induction false} FailuresAreTheFailingOutcomes(history: seq<Outcome>)
    ensures FailureCount(history)
         == CountOf(history, StaleEtagExhausted) + CountOf(history, ServerError) + CountOf(history, Exception)
    ensures |history| == FailureCount(history) + CountOf(history, Ok) + CountOf(history, RetriedOk)
  {
    if history != [] {
      FailuresAreTheFailingOutcomes(history[..|history| - 1]);
    }
  }

  /** The consecutive counter is the length of the longest failing suffix. */
  lemma {:induction false} ConsecutiveIsTheLongestFailingSuffix(history: seq<Outcome>)
    ensures var k := TrailingFailures(history);
            && k <= |history|
            && (forall i :: |history| - k <= i < |history| ==> !Succeeded(history[i]))
            && (k < |history| ==> Succeeded(history[|history| - k - 1]))
  {
    if history != [] {
      ConsecutiveIsTheLongestFailingSuffix(history[..|history| - 1]);
    }
  }
}
