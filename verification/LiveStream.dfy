/** The delta code book of the live stream: what a connection has been told about slots and haulier
    codes, and when that resolves the frames it is sent. */
module LiveStream {
  import opened Options

  type Agent = nat
  type Slot = nat
  type Haulier = nat
  type Code = nat

  /** The hot tier's books: agent to slot as a dictionary's items, and haulier to code. */
  datatype Hot = Hot(slots: seq<(Agent, Slot)>, codes: map<Haulier, Code>)

  /** What a connection has been told; also what a client has folded from its code-book events. */
  datatype Known = Known(slots: map<Slot, Agent>, codes: map<Haulier, Code>)

  datatype Book = Book(full: bool, slots: map<Slot, Agent>, codes: map<Haulier, Code>)

  /** The slot map turned round; a slot held by two agents goes to the later one. */
  function Inverse(items: seq<(Agent, Slot)>): map<Slot, Agent> {
    if items == [] then map[]
    else Inverse(items[..|items| - 1])[items[|items| - 1].1 := items[|items| - 1].0]
  }

  /** Some agent's slot is known under another agent. */
  predicate SlotsContradict(items: seq<(Agent, Slot)>, known: map<Slot, Agent>) {
    exists i :: 0 <= i < |items| && items[i].1 in known && known[items[i].1] != items[i].0
  }

  lemma ContradictSnoc(items: seq<(Agent, Slot)>, x: (Agent, Slot), known: map<Slot, Agent>)
    ensures SlotsContradict(items + [x], known)
       <==> SlotsContradict(items, known) || (x.1 in known && known[x.1] != x.0)
  {
    var more := items + [x];
    assert more[|items|] == x;
    forall j | 0 <= j < |items|
      ensures more[j] == items[j]
    {
    }
  }

  predicate CodesContradict(codes: map<Haulier, Code>, known: map<Haulier, Code>) {
    exists h :: h in codes && h in known && known[h] != codes[h]
  }

  function Delta(hot: Hot, known: Known): Option<Book> {
    if SlotsContradict(hot.slots, known.slots) || CodesContradict(hot.codes, known.codes) then
      Some(Book(true, Inverse(hot.slots), hot.codes))
    else
      var newSlots := Inverse(hot.slots) - known.slots.Keys;
      var newCodes := hot.codes - known.codes.Keys;
      if newSlots == map[] && newCodes == map[] then None else Some(Book(false, newSlots, newCodes))
  }

  function Told(known: Known, book: Book): Known {
    if book.full then Known(book.slots, book.codes)
    else Known(known.slots + book.slots, known.codes + book.codes)
  }

  /** `_codebook_delta`, with its loops over the two dictionaries. */
  method CodebookDelta(hot: Option<Hot>, known: Known) returns (delta: Option<Book>)
    ensures delta == if hot.None? then None else Delta(hot.value, known)
  {
    if hot.None? {
      return None;
    }
    var slots: map<Slot, Agent> := map[];
    var contradicted := false;
    var items := hot.value.slots;
    var i := 0;
    while i < |items|
      invariant 0 <= i <= |items|
      invariant slots == Inverse(items[..i])
      invariant contradicted <==> SlotsContradict(items[..i], known.slots)
    {
      assert items[..i + 1][..i] == items[..i];
      ContradictSnoc(items[..i], items[i], known.slots);
      assert items[..i + 1] == items[..i] + [items[i]];
      slots := slots[items[i].1 := items[i].0];
      if items[i].1 in known.slots && known.slots[items[i].1] != items[i].0 {
        contradicted := true;
      }
      i := i + 1;
    }
    assert items[..i] == items;
    var codes := hot.value.codes;
    var todo := codes.Keys;
    ghost var bySlot := contradicted;
    while todo != {}
      invariant todo <= codes.Keys
      invariant contradicted
           <==> bySlot || exists h :: h in codes.Keys - todo && h in known.codes && known.codes[h] != codes[h]
      decreases todo
    {
      var h :| h in todo;
      if h in known.codes && known.codes[h] != codes[h] {
        contradicted := true;
      }
      todo := todo - {h};
    }
    if contradicted {
      return Some(Book(true, slots, codes));
    }
    var newSlots := slots - known.slots.Keys;
    var newCodes := codes - known.codes.Keys;
    delta := if newSlots == map[] && newCodes == map[] then None else Some(Book(false, newSlots, newCodes));
  }

  // ---------------------------------------------------------------- agreement

  /** No two agents share a slot. */
  ghost predicate SlotsApart(items: seq<(Agent, Slot)>) {
    forall i, j :: 0 <= i < j < |items| ==> items[i].1 != items[j].1
  }

  /** A dictionary holds each agent once. */
  ghost predicate IsDict(items: seq<(Agent, Slot)>) {
    forall i, j :: 0 <= i < j < |items| ==> items[i].0 != items[j].0
  }

  /** The client resolves every current slot and haulier code as the hot tier does. */
  ghost predicate Agrees(known: Known, hot: Hot) {
    && (forall i :: 0 <= i < |hot.slots| ==>
          hot.slots[i].1 in known.slots && known.slots[hot.slots[i].1] == hot.slots[i].0)
    && (forall h :: h in hot.codes ==> h in known.codes && known.codes[h] == hot.codes[h])
  }

  lemma {:induction false} InverseFacts(items: seq<(Agent, Slot)>)
    requires SlotsApart(items)
    ensures forall i :: 0 <= i < |items| ==> items[i].1 in Inverse(items) && Inverse(items)[items[i].1] == items[i].0
  {
    if items != [] {
      InverseFacts(items[..|items| - 1]);
    }
  }

  lemma {:induction false} InverseCovers(items: seq<(Agent, Slot)>, s: Slot)
    requires s in Inverse(items)
    ensures exists i :: 0 <= i < |items| && items[i] == (Inverse(items)[s], s)
  {
    var n := |items| - 1;
    if items[n].1 == s {
      assert items[n] == (Inverse(items)[s], s);
    } else {
      InverseCovers(items[..n], s);
      var i :| 0 <= i < n && items[..n][i] == (Inverse(items[..n])[s], s);
      assert items[i] == (Inverse(items)[s], s);
    }
  }

  function AfterEmit(known: Known, hot: Hot): Known {
    if Delta(hot, known).None? then known else Told(known, Delta(hot, known).value)
  }

  /** After every emission, partial or full or not needed, the client agrees with the hot tier, exactly
      when no two agents share a slot. */
  lemma EmitAgreesIff(known: Known, hot: Hot)
    requires IsDict(hot.slots)
    ensures Agrees(AfterEmit(known, hot), hot) <==> SlotsApart(hot.slots)
  {
    if SlotsApart(hot.slots) {
      InverseFacts(hot.slots);
      EmitAgrees(known, hot);
    }
    if Agrees(AfterEmit(known, hot), hot) {
      var items := hot.slots;
      forall i, j | 0 <= i < j < |items|
        ensures items[i].1 != items[j].1
      {
        assert items[i].0 != items[j].0;
      }
    }
  }

  lemma EmitAgrees(known: Known, hot: Hot)
    requires forall i :: 0 <= i < |hot.slots| ==>
               hot.slots[i].1 in Inverse(hot.slots) && Inverse(hot.slots)[hot.slots[i].1] == hot.slots[i].0
    ensures Agrees(AfterEmit(known, hot), hot)
  {
    var after := AfterEmit(known, hot);
    if !(SlotsContradict(hot.slots, known.slots) || CodesContradict(hot.codes, known.codes)) {
      var newSlots, newCodes := Inverse(hot.slots) - known.slots.Keys, hot.codes - known.codes.Keys;
      assert after == Known(known.slots + newSlots, known.codes + newCodes) by {
        if newSlots == map[] && newCodes == map[] {
          assert known.slots + newSlots == known.slots && known.codes + newCodes == known.codes;
        }
      }
    }
  }

  // ---------------------------------------------------------------- the connection

  datatype Frame = Frame(idx: nat, slots: seq<Slot>)

  datatype Out = BookOut(epoch: nat, book: Book) | FrameOut(frame: Frame) | Waiting | KeepAlive

  datatype Conn = Conn(known: Known, epoch: nat, sent: nat, lastIdx: Option<nat>)

  /** One turn of the loop: the snapshot, if the run is resident, and what a book lookup made after
      it finds, if it succeeds.  `taken` is the hot tier at the snapshot. */
  datatype Turn = Turn(frame: Option<Frame>, taken: Hot, look: Option<Hot>)

  function Emit(c: Conn, look: Option<Hot>): (Conn, seq<Out>) {
    if look.None? || Delta(look.value, c.known).None? then (c, [])
    else
      var book := Delta(look.value, c.known).value;
      var epoch := if book.full then c.epoch + 1 else c.epoch;
      (c.(known := Told(c.known, book), epoch := epoch), [BookOut(epoch, book)])
  }

  predicate NeedsBook(c: Conn, f: Frame) {
    c.sent == 0 || exists i :: 0 <= i < |f.slots| && f.slots[i] !in c.known.slots
  }

  function TurnOf(c: Conn, framesMode: bool, t: Turn): (Conn, seq<Out>) {
    if t.frame.None? then (c, [Waiting])
    else
      var f := t.frame.value;
      if f.slots == [] || (c.lastIdx == Some(f.idx) && c.sent != 0) then (c, [KeepAlive])
      else
        var (d, books) := if framesMode && NeedsBook(c, f) then Emit(c, t.look) else (c, []);
        (d.(sent := d.sent + 1, lastIdx := Some(f.idx)), books + [FrameOut(f)])
  }

  function NewConn(): Conn {
    Conn(Known(map[], map[]), 0, 0, None)
  }

  /** The whole stream: the connection's state and everything sent. */
  function Stream(framesMode: bool, turns: seq<Turn>): (Conn, seq<Out>) {
    if turns == [] then (NewConn(), [])
    else
      var (c, outs) := Stream(framesMode, turns[..|turns| - 1]);
      var (d, more) := TurnOf(c, framesMode, turns[|turns| - 1]);
      (d, outs + more)
  }

  class Connection {
    const framesMode: bool
    var known: Known
    var epoch: nat
    var sent: nat
    var lastIdx: Option<nat>

    ghost function View(): Conn
      reads this
    {
      Conn(known, epoch, sent, lastIdx)
    }

    constructor (framesMode: bool)
      ensures View() == NewConn() && this.framesMode == framesMode
    {
      this.framesMode, known, epoch, sent, lastIdx := framesMode, Known(map[], map[]), 0, 0, None;
    }

    method EmitCodebook(look: Option<Hot>) returns (out: seq<Out>)
      modifies `known, `epoch
      ensures (View(), out) == Emit(old(View()), look)
    {
      var delta := CodebookDelta(look, known);
      if delta.None? {
        return [];
      }
      if delta.value.full {
        known := Known(map[], map[]);
        epoch := epoch + 1;
      }
      assert map[] + delta.value.slots == delta.value.slots && map[] + delta.value.codes == delta.value.codes;
      known := Known(known.slots + delta.value.slots, known.codes + delta.value.codes);
      out := [BookOut(epoch, delta.value)];
    }

    method OneTurn(t: Turn) returns (out: seq<Out>)
      modifies `known, `epoch, `sent, `lastIdx
      ensures (View(), out) == TurnOf(old(View()), framesMode, t)
    {
      if t.frame.None? {
        return [Waiting];
      }
      var f := t.frame.value;
      if f.slots == [] {
        return [KeepAlive];
      }
      if lastIdx.None? || lastIdx != Some(f.idx) || sent == 0 {
        lastIdx := Some(f.idx);
        out := [];
        if framesMode && (sent == 0 || exists i :: 0 <= i < |f.slots| && f.slots[i] !in known.slots) {
          out := EmitCodebook(t.look);
        }
        out := out + [FrameOut(f)];
        sent := sent + 1;
      } else {
        out := [KeepAlive];
      }
    }
  }

  // ---------------------------------------------------------------- what the client has

  /** What a client folds from the events. */
  function Fold(outs: seq<Out>): Known {
    if outs == [] then Known(map[], map[])
    else
      var before := Fold(outs[..|outs| - 1]);
      if outs[|outs| - 1].BookOut? then Told(before, outs[|outs| - 1].book) else before
  }

  lemma FoldSnoc(outs: seq<Out>, o: Out)
    ensures Fold(outs + [o]) == if o.BookOut? then Told(Fold(outs), o.book) else Fold(outs)
  {
    assert (outs + [o])[..|outs|] == outs;
  }

  /** After `more` a client knows `known`, and it did so before any frame in it. */
  ghost predicate FoldsTo(outs: seq<Out>, more: seq<Out>, known: Known) {
    && Fold(outs + more) == known
    && forall p :: 0 <= p < |more| && more[p].FrameOut? ==> Fold(outs + more[..p]) == known
  }

  lemma FoldOne(outs: seq<Out>, o: Out)
    requires !o.BookOut?
    ensures FoldsTo(outs, [o], Fold(outs))
  {
    FoldSnoc(outs, o);
    assert [o][..0] == [] && outs + [] == outs;
  }

  lemma FoldTwo(outs: seq<Out>, o: Out, p: Out)
    requires o.BookOut? && !p.BookOut?
    ensures FoldsTo(outs, [o, p], Told(Fold(outs), o.book))
  {
    FoldSnoc(outs, o);
    FoldSnoc(outs + [o], p);
    assert [o, p][..1] == [o] && outs + [o, p] == (outs + [o]) + [p];
  }

  lemma FoldTurn(outs: seq<Out>, c: Conn, framesMode: bool, t: Turn)
    requires Fold(outs) == c.known
    ensures var (d, more) := TurnOf(c, framesMode, t);
            && FoldsTo(outs, more, d.known)
            && forall p :: 0 <= p < |more| && more[p].FrameOut? ==> t.frame.Some? && more[p].frame == t.frame.value
  {
    var (d, more) := TurnOf(c, framesMode, t);
    if |more| == 1 {
      assert more == [more[0]];
      FoldOne(outs, more[0]);
    } else {
      assert more == [more[0], more[1]];
      FoldTwo(outs, more[0], more[1]);
    }
  }

  /** The connection's own books are the fold of the events it has sent. */
  lemma {:induction false} FoldIsKnown(framesMode: bool, turns: seq<Turn>)
    ensures Fold(Stream(framesMode, turns).1) == Stream(framesMode, turns).0.known
  {
    if turns != [] {
      var n := |turns| - 1;
      FoldIsKnown(framesMode, turns[..n]);
      FoldTurn(Stream(framesMode, turns[..n]).1, Stream(framesMode, turns[..n]).0, framesMode, turns[n]);
    }
  }

  // ---------------------------------------------------------------- frames

  /** The client resolves each of these slots to the agent that has it. */
  ghost predicate Resolves(known: map<Slot, Agent>, slots: seq<Slot>, items: seq<(Agent, Slot)>) {
    forall i :: 0 <= i < |slots| ==>
      slots[i] in Inverse(items) && slots[i] in known && known[slots[i]] == Inverse(items)[slots[i]]
  }

  /** Nothing the connection was told is out of date. */
  ghost predicate UpToDate(known: map<Slot, Agent>, items: seq<(Agent, Slot)>) {
    forall s :: s in known ==> s in Inverse(items) && known[s] == Inverse(items)[s]
  }

  ghost predicate SlotsAllocated(t: Turn) {
    t.frame.Some? ==> forall i :: 0 <= i < |t.frame.value.slots| ==> t.frame.value.slots[i] in Inverse(t.taken.slots)
  }

  /** The slot map only grows: a dictionary keeps its items in insertion order. */
  ghost predicate OnlyGrows(turns: seq<Turn>, last: Hot) {
    && SlotsApart(last.slots)
    && (forall i :: 0 <= i < |turns| ==>
          && turns[i].look.Some? && SlotsAllocated(turns[i])
          && turns[i].taken.slots <= turns[i].look.value.slots <= last.slots)
    && (forall i, j :: 0 <= i < j < |turns| && turns[i].look.Some? ==>
          turns[i].look.value.slots <= turns[j].taken.slots)
  }

  lemma InverseGrows(a: seq<(Agent, Slot)>, b: seq<(Agent, Slot)>, s: Slot)
    requires a <= b && SlotsApart(b) && s in Inverse(a)
    ensures s in Inverse(b) && Inverse(b)[s] == Inverse(a)[s]
  {
    InverseCovers(a, s);
    InverseFacts(b);
    var i :| 0 <= i < |a| && a[i] == (Inverse(a)[s], s);
    assert b[i] == a[i];
  }

  lemma UpToDateGrows(known: map<Slot, Agent>, a: seq<(Agent, Slot)>, b: seq<(Agent, Slot)>)
    requires a <= b && SlotsApart(b) && UpToDate(known, a)
    ensures UpToDate(known, b)
  {
    forall s | s in known
      ensures s in Inverse(b) && known[s] == Inverse(b)[s]
    {
      InverseGrows(a, b, s);
    }
  }

  lemma EmitStaysUpToDate(c: Conn, look: Hot)
    requires UpToDate(c.known.slots, look.slots) && SlotsApart(look.slots)
    ensures UpToDate(Emit(c, Some(look)).0.known.slots, look.slots)
    ensures forall s :: s in Inverse(look.slots) ==> s in Emit(c, Some(look)).0.known.slots
  {
    InverseFacts(look.slots);
    EmitAgrees(c.known, look);
    forall s | s in Inverse(look.slots)
      ensures s in Emit(c, Some(look)).0.known.slots
    {
      InverseCovers(look.slots, s);
    }
  }

  lemma TurnResolves(c: Conn, t: Turn)
    requires t.look.Some? && SlotsAllocated(t) && t.taken.slots <= t.look.value.slots && SlotsApart(t.look.value.slots)
    requires UpToDate(c.known.slots, t.taken.slots)
    ensures var d := TurnOf(c, true, t).0;
            && UpToDate(d.known.slots, t.look.value.slots)
            && ((exists p :: 0 <= p < |TurnOf(c, true, t).1| && TurnOf(c, true, t).1[p].FrameOut?)
                ==> Resolves(d.known.slots, t.frame.value.slots, t.taken.slots))
  {
    var now := t.look.value;
    forall s | s in Inverse(t.taken.slots)
      ensures s in Inverse(now.slots) && Inverse(now.slots)[s] == Inverse(t.taken.slots)[s]
    {
      InverseGrows(t.taken.slots, now.slots, s);
    }
    assert UpToDate(c.known.slots, now.slots);
    EmitStaysUpToDate(c, now);
  }

  /** In frames mode, while the slot map only grows and the lookups succeed, every frame event comes
      after code-book events that resolve all its slots to the trucks they stood for. */
  lemma {:induction false} FramesAreResolved(turns: seq<Turn>, last: Hot)
    requires OnlyGrows(turns, last)
    ensures turns != [] ==> UpToDate(Stream(true, turns).0.known.slots, turns[|turns| - 1].look.value.slots)
    ensures turns == [] ==> Stream(true, turns).0 == NewConn()
    ensures AllResolved(Stream(true, turns).1, turns)
  {
    if turns != [] {
      var n := |turns| - 1;
      FramesAreResolved(turns[..n], turns[n].taken);
      var c, outs := Stream(true, turns[..n]).0, Stream(true, turns[..n]).1;
      if n > 0 {
        assert turns[..n][n - 1] == turns[n - 1];
        UpToDateGrows(c.known.slots, turns[n - 1].look.value.slots, turns[n].taken.slots);
      }
      TurnResolves(c, turns[n]);
      FoldIsKnown(true, turns[..n]);
      FoldTurn(outs, c, true, turns[n]);
      ResolvedGrows(turns, outs, TurnOf(c, true, turns[n]).1);
    }
  }

  /** Every frame in the stream is one of the turns' and is resolved by what came before it. */
  ghost predicate AllResolved(outs: seq<Out>, turns: seq<Turn>) {
    forall p :: 0 <= p < |outs| && outs[p].FrameOut? ==> ResolvedBy(outs, p, turns)
  }

  ghost predicate ResolvedBy(outs: seq<Out>, p: nat, turns: seq<Turn>)
    requires p < |outs| && outs[p].FrameOut?
  {
    exists i :: 0 <= i < |turns| && turns[i].frame == Some(outs[p].frame)
                && Resolves(Fold(outs[..p]).slots, outs[p].frame.slots, turns[i].taken.slots)
  }

  lemma ResolvedGrows(turns: seq<Turn>, outs: seq<Out>, more: seq<Out>)
    requires turns != [] && AllResolved(outs, turns[..|turns| - 1])
    requires forall p :: 0 <= p < |more| && more[p].FrameOut? ==>
               && turns[|turns| - 1].frame == Some(more[p].frame)
               && Resolves(Fold(outs + more[..p]).slots, more[p].frame.slots, turns[|turns| - 1].taken.slots)
    ensures AllResolved(outs + more, turns)
  {
    var all := outs + more;
    forall p | 0 <= p < |all| && all[p].FrameOut?
      ensures ResolvedBy(all, p, turns)
    {
      if p < |outs| {
        assert all[..p] == outs[..p] && ResolvedBy(outs, p, turns[..|turns| - 1]);
        var i :| 0 <= i < |turns| - 1 && turns[..|turns| - 1][i].frame == Some(outs[p].frame)
                 && Resolves(Fold(outs[..p]).slots, outs[p].frame.slots, turns[..|turns| - 1][i].taken.slots);
        assert turns[i] == turns[..|turns| - 1][i];
      } else {
        assert all[..p] == outs + more[..p - |outs|];
      }
    }
  }

  // ---------------------------------------------------------------- when a slab may be rebuilt

  function ConnAt(turns: seq<Turn>, n: nat): Conn
    requires n <= |turns|
  {
    Stream(true, turns[..n]).0
  }

  /** Turn `n` sends a frame. */
  predicate Sends(turns: seq<Turn>, n: nat)
    requires n < |turns|
  {
    var t := turns[n];
    t.frame.Some? && t.frame.value.slots != []
    && !(ConnAt(turns, n).lastIdx == Some(t.frame.value.idx) && ConnAt(turns, n).sent != 0)
  }

  /** And looks at the books first. */
  predicate BookDue(turns: seq<Turn>, n: nat)
    requires n < |turns|
  {
    Sends(turns, n) && NeedsBook(ConnAt(turns, n), turns[n].frame.value)
  }

  /** The book turn `n` sends, if any. */
  function BookOf(turns: seq<Turn>, n: nat): Option<Book>
    requires n < |turns|
  {
    if BookDue(turns, n) && turns[n].look.Some? then Delta(turns[n].look.value, ConnAt(turns, n).known) else None
  }

  /** The turn, before turn `n`, at which the connection was last told slot `s`; a full book takes back
      what it does not repeat. */
  function LastTold(turns: seq<Turn>, n: nat, s: Slot): Option<nat>
    requires n <= |turns|
  {
    if n == 0 then None
    else
      var book := BookOf(turns, n - 1);
      if book.Some? && s in book.value.slots then Some(n - 1)
      else if book.Some? && book.value.full then None
      else LastTold(turns, n - 1, s)
  }

  /** Slot `s` has, at the snapshot of turn `n`, the agent the connection was last told in turns before
      `upto`. */
  predicate Unchanged(turns: seq<Turn>, upto: nat, n: nat, s: Slot)
    requires upto <= |turns| && n < |turns|
  {
    && LastTold(turns, upto, s).Some? && LastTold(turns, upto, s).value < |turns|
    && turns[LastTold(turns, upto, s).value].look.Some?
    && var told := Inverse(turns[LastTold(turns, upto, s).value].look.value.slots);
       s in told && s in Inverse(turns[n].taken.slots) && told[s] == Inverse(turns[n].taken.slots)[s]
  }

  ghost predicate AllUnchanged(turns: seq<Turn>, upto: nat, n: nat)
    requires upto <= |turns| && n < |turns| && turns[n].frame.Some?
  {
    forall i :: 0 <= i < |turns[n].frame.value.slots| ==> Unchanged(turns, upto, n, turns[n].frame.value.slots[i])
  }

  /** The frame of turn `n` is resolved by everything sent before it. */
  ghost predicate FrameResolved(turns: seq<Turn>, n: nat)
    requires n < |turns| && turns[n].frame.Some?
  {
    Resolves(ConnAt(turns, n + 1).known.slots, turns[n].frame.value.slots, turns[n].taken.slots)
  }

  /** The lookup after a snapshot succeeds, and the slab is not rebuilt in between. */
  ghost predicate Steady(turns: seq<Turn>) {
    forall n :: 0 <= n < |turns| ==>
      && turns[n].look.Some? && SlotsApart(turns[n].look.value.slots) && SlotsAllocated(turns[n])
      && turns[n].taken.slots <= turns[n].look.value.slots
  }

  lemma TurnAt(turns: seq<Turn>, n: nat)
    requires n < |turns|
    ensures ConnAt(turns, n + 1) == TurnOf(ConnAt(turns, n), true, turns[n]).0
    ensures ConnAt(turns, n + 1).known.slots
         == if BookOf(turns, n).Some? then Told(ConnAt(turns, n).known, BookOf(turns, n).value).slots
            else ConnAt(turns, n).known.slots
  {
    assert turns[..n + 1][..n] == turns[..n];
  }

  /** What is known of a slot is what the lookup of the turn that last told it found. */
  lemma {:induction false} KnownIsLastTold(turns: seq<Turn>, n: nat, s: Slot)
    requires n <= |turns|
    ensures var known, told := ConnAt(turns, n).known.slots, LastTold(turns, n, s);
            && (s in known <==> told.Some?)
            && (told.Some? ==> told.value < n && turns[told.value].look.Some?
                               && s in Inverse(turns[told.value].look.value.slots)
                               && known[s] == Inverse(turns[told.value].look.value.slots)[s])
  {
    if n > 0 {
      KnownIsLastTold(turns, n - 1, s);
      TurnAt(turns, n - 1);
    } else {
      assert turns[..0] == [];
    }
  }

  /** The fold of the events before the frame is what `FrameResolved` speaks of. */
  lemma FoldBeforeFrame(turns: seq<Turn>, n: nat)
    requires n < |turns| && Sends(turns, n)
    ensures var outs, more := Stream(true, turns[..n]).1, TurnOf(ConnAt(turns, n), true, turns[n]).1;
            && more != [] && more[|more| - 1] == FrameOut(turns[n].frame.value)
            && Stream(true, turns[..n + 1]).1 == outs + more
            && Fold(outs + more[..|more| - 1]) == ConnAt(turns, n + 1).known
  {
    FoldIsKnown(true, turns[..n]);
    FoldTurn(Stream(true, turns[..n]).1, ConnAt(turns, n), true, turns[n]);
    TurnAt(turns, n);
    assert turns[..n + 1][..n] == turns[..n];
  }

  /** In any stream, with failed lookups and rebuilt slabs, a frame is resolved exactly when no slot in
      it has changed its agent since the connection was last told that slot. */
  lemma FrameResolvedIff(turns: seq<Turn>, n: nat)
    requires n < |turns| && turns[n].frame.Some? && SlotsAllocated(turns[n])
    ensures FrameResolved(turns, n) <==> AllUnchanged(turns, n + 1, n)
  {
    var slots := turns[n].frame.value.slots;
    forall i | 0 <= i < |slots|
      ensures slots[i] in ConnAt(turns, n + 1).known.slots
              && ConnAt(turns, n + 1).known.slots[slots[i]] == Inverse(turns[n].taken.slots)[slots[i]]
         <==> Unchanged(turns, n + 1, n, slots[i])
    {
      KnownIsLastTold(turns, n + 1, slots[i]);
      assert slots[i] in Inverse(turns[n].taken.slots);
    }
  }

  /** A due book that the slab outlives makes its frame resolved. */
  lemma DueBookResolves(turns: seq<Turn>, n: nat)
    requires Steady(turns) && n < |turns| && BookDue(turns, n)
    ensures FrameResolved(turns, n)
  {
    var t, c := turns[n], ConnAt(turns, n);
    var look := t.look.value;
    TurnAt(turns, n);
    InverseFacts(look.slots);
    EmitAgrees(c.known, look);
    assert Emit(c, t.look).0.known == AfterEmit(c.known, look);
    var slots := t.frame.value.slots;
    forall i | 0 <= i < |slots|
      ensures slots[i] in ConnAt(turns, n + 1).known.slots
      ensures ConnAt(turns, n + 1).known.slots[slots[i]] == Inverse(t.taken.slots)[slots[i]]
    {
      InverseGrows(t.taken.slots, look.slots, slots[i]);
      InverseCovers(look.slots, slots[i]);
    }
  }

  /** So while lookups succeed and no slab is rebuilt between a snapshot and its lookup, every frame of
      the stream is resolved exactly when, at each frame sent without a due book, no slot in it has
      changed its agent since the connection was last told it. */
  lemma StreamResolvedIff(turns: seq<Turn>)
    requires Steady(turns)
    ensures (forall n :: 0 <= n < |turns| && Sends(turns, n) ==> FrameResolved(turns, n))
       <==> (forall n :: 0 <= n < |turns| && Sends(turns, n) && !BookDue(turns, n) ==> AllUnchanged(turns, n, n))
  {
    forall n | 0 <= n < |turns| && Sends(turns, n)
      ensures FrameResolved(turns, n) <==> BookDue(turns, n) || AllUnchanged(turns, n, n)
    {
      if BookDue(turns, n) {
        DueBookResolves(turns, n);
      } else {
        FrameResolvedIff(turns, n);
        NotToldAgain(turns, n);
      }
    }
  }

  lemma NotToldAgain(turns: seq<Turn>, n: nat)
    requires n < |turns| && turns[n].frame.Some? && !BookDue(turns, n)
    ensures AllUnchanged(turns, n + 1, n) <==> AllUnchanged(turns, n, n)
  {
    forall s
      ensures LastTold(turns, n + 1, s) == LastTold(turns, n, s)
    {
    }
  }

  const ONE_TRUCK: Turn := Turn(Some(Frame(0, [0])), Hot([(7, 0)], map[]), Some(Hot([(7, 0)], map[])))
  const OTHER_TRUCK: Turn := Turn(Some(Frame(1, [0])), Hot([(8, 0)], map[]), Some(Hot([(8, 0)], map[])))

  lemma FirstTurn()
    ensures Inverse([(7, 0)]) == map[0 := 7]
    ensures TurnOf(NewConn(), true, ONE_TRUCK)
         == (Conn(Known(map[0 := 7], map[]), 0, 1, Some(0)),
             [BookOut(0, Book(false, map[0 := 7], map[])), FrameOut(Frame(0, [0]))])
  {
    var none: map<Slot, Agent>, noCodes: map<Haulier, Code> := map[], map[];
    var slots: map<Slot, Agent> := map[0 := 7];
    assert Inverse([(7, 0)]) == slots;
    assert none + slots == slots && slots - none.Keys == slots && noCodes - noCodes.Keys == noCodes;
    assert noCodes + noCodes == noCodes;
    var book := Book(false, slots, noCodes);
    assert slots != none by {
      assert 0 in slots;
    }
    assert Delta(ONE_TRUCK.taken, NewConn().known) == Some(book);
    assert [BookOut(0, book)] + [FrameOut(Frame(0, [0]))] == [BookOut(0, book), FrameOut(Frame(0, [0]))];
    assert Emit(NewConn(), ONE_TRUCK.look) == (Conn(Known(slots, noCodes), 0, 0, None), [BookOut(0, book)]);
  }

  /** One slot, one truck; then the slab is rebuilt and the slot is another truck's. */
  lemma RebuiltSlabMisleads()
    ensures var turns := [ONE_TRUCK, OTHER_TRUCK];
            Steady(turns) && Sends(turns, 1) && !BookDue(turns, 1) && !FrameResolved(turns, 1)
  {
    var turns := [ONE_TRUCK, OTHER_TRUCK];
    FirstTurn();
    assert Inverse([(8, 0)]) == map[0 := 8];
    assert [ONE_TRUCK][..0] == [] && turns[..1] == [ONE_TRUCK];
    assert [] + TurnOf(NewConn(), true, ONE_TRUCK).1 == TurnOf(NewConn(), true, ONE_TRUCK).1;
    assert Stream(true, [ONE_TRUCK]) == TurnOf(NewConn(), true, ONE_TRUCK);
    assert ConnAt(turns, 1).known.slots == map[0 := 7];
    TurnAt(turns, 1);
    assert [0][0] == 0;
  }
}
