/** The code books of one run over a whole life: positions, sweeps that persist while positions keep
    coming, restarts and restores. */
module CodeBookRuns {
  import opened Options
  import opened CodeBook

  // ---------------------------------------------------------------- the hot tier's slab

  const MAX_CODE: nat := 255

  datatype Slab = Slab(books: Books, nextCode: nat, active: nat)

  const NEW_SLAB: Slab := Slab(EMPTY, 1, 0)

  function CodeFor(s: Slab, h: Name): Slab {
    if h in s.books.codes then s
    else if s.nextCode > MAX_CODE then s.(books := s.books.(codes := s.books.codes[h := MAX_CODE]))
    else s.(books := s.books.(codes := s.books.codes[h := s.nextCode]), nextCode := s.nextCode + 1)
  }

  function SlotFor(s: Slab, a: Name): Slab {
    if a in s.books.slots then s
    else s.(books := s.books.(slots := s.books.slots[a := s.active]), active := s.active + 1)
  }

  /** A position of truck `a`; a truck without a haulier mints no code. */
  function Positioned(s: Slab, a: Name, h: Option<Name>): Slab {
    var t := SlotFor(s, a);
    if h.Some? then CodeFor(t, h.value) else t
  }

  predicate Uses(m: Map, v: nat) {
    exists n :: n in m && m[n] == v
  }

  /** The largest value in use at most `v`, or 0. */
  function Top(m: Map, v: nat): nat {
    if v == 0 || Uses(m, v) then v else Top(m, v - 1)
  }

  ghost predicate IsHighest(m: Map, keys: set<Name>, h: nat) {
    keys <= m.Keys && (forall n :: n in keys ==> m[n] <= h) && exists n :: n in keys && m[n] == h
  }

  lemma {:induction false} HasHighest(m: Map, keys: set<Name>)
    requires keys != {} && keys <= m.Keys
    ensures exists h :: IsHighest(m, keys, h)
  {
    var a :| a in keys;
    if keys == {a} {
      assert IsHighest(m, keys, m[a]);
    } else {
      var rest := keys - {a};
      assert keys == rest + {a} && rest != {};
      HasHighest(m, rest);
      var h :| IsHighest(m, rest, h);
      assert IsHighest(m, keys, if h < m[a] then m[a] else h);
    }
  }

  /** The highest slot in use. */
  ghost function Highest(m: Map): (h: nat)
    requires m != map[]
    ensures IsHighest(m, m.Keys, h)
  {
    NotEmpty(m);
    HasHighest(m, m.Keys);
    var h :| IsHighest(m, m.Keys, h);
    h
  }

  lemma NotEmpty(m: Map)
    requires m != map[]
    ensures m.Keys != {}
  {
  }

  /** The slab a restore builds from what is on disk. */
  ghost function Adopted(disk: Books): Slab {
    Slab(disk, if disk.codes == map[] then 1 else Top(disk.codes, MAX_CODE - 1) + 1,
         if disk.slots == map[] then 0 else Highest(disk.slots) + 1)
  }

  // ---------------------------------------------------------------- what minting keeps

  ghost predicate Injective(m: Map) {
    forall a, b :: a in m && b in m && a != b ==> m[a] != m[b]
  }

  /** Slots are 0 .. n-1, one each. */
  ghost predicate SlotsOk(m: Map) {
    && Injective(m)
    && (forall n :: n in m ==> m[n] < |m|)
    && (forall v :: 0 <= v < |m| ==> Uses(m, v))
  }

  function Cap(n: nat): nat {
    if n < MAX_CODE then n else MAX_CODE
  }

  /** Codes are 1 .. n, one each, until the 255th; then every further name shares 255. */
  ghost predicate CodesOk(m: Map) {
    && (Injective(m) <==> |m| <= MAX_CODE)
    && (forall n :: n in m ==> 1 <= m[n] <= Cap(|m|))
    && (forall v :: 1 <= v <= Cap(|m|) ==> Uses(m, v))
  }

  ghost predicate BooksOk(b: Books) {
    CodesOk(b.codes) && SlotsOk(b.slots)
  }

  ghost predicate NextOk(codes: Map, next: nat) {
    if |codes| < MAX_CODE then next == |codes| + 1 else next >= MAX_CODE
  }

  ghost predicate SlabOk(s: Slab) {
    BooksOk(s.books) && s.active == |s.books.slots| && NextOk(s.books.codes, s.nextCode)
  }

  lemma SlotForOk(s: Slab, a: Name)
    requires SlabOk(s)
    ensures SlabOk(SlotFor(s, a)) && BooksWithin(s.books, SlotFor(s, a).books)
  {
    if a !in s.books.slots {
      var m, n := s.books.slots, s.books.slots[a := s.active];
      assert |n| == |m| + 1;
      forall v | 0 <= v < |n|
        ensures Uses(n, v)
      {
        if v < |m| {
          assert Uses(m, v);
          var x :| x in m && m[x] == v;
          assert x in n && n[x] == v;
        } else {
          assert a in n && n[a] == v;
        }
      }
    }
  }

  lemma AddCode(m: Map, h: Name, code: nat)
    requires CodesOk(m) && h !in m && code == if |m| < MAX_CODE then |m| + 1 else MAX_CODE
    ensures CodesOk(m[h := code]) && |m[h := code]| == |m| + 1
  {
    var n := m[h := code];
    assert |n| == |m| + 1;
    forall v | 1 <= v <= Cap(|n|)
      ensures Uses(n, v)
    {
      if v <= Cap(|m|) {
        assert Uses(m, v);
        var x :| x in m && m[x] == v;
        assert x in n && n[x] == v;
      } else {
        assert h in n && n[h] == v;
      }
    }
    if |m| < MAX_CODE {
      assert Injective(n);
    } else {
      assert Uses(m, MAX_CODE);
      var x :| x in m && m[x] == MAX_CODE;
      assert x in n && n[x] == n[h];
    }
  }

  lemma CodeForOk(s: Slab, h: Name)
    requires SlabOk(s)
    ensures SlabOk(CodeFor(s, h)) && BooksWithin(s.books, CodeFor(s, h).books)
  {
    if h !in s.books.codes {
      AddCode(s.books.codes, h, if s.nextCode > MAX_CODE then MAX_CODE else s.nextCode);
    }
  }

  lemma {:induction false} TopIsCount(m: Map, v: nat)
    requires CodesOk(m) && Cap(|m|) <= v
    ensures Top(m, v) == Cap(|m|)
  {
    if v > 0 && !Uses(m, v) {
      TopIsCount(m, v - 1);
    }
  }

  lemma AdoptedOk(disk: Books)
    requires BooksOk(disk)
    ensures SlabOk(Adopted(disk))
  {
    if disk.codes != map[] {
      NextCodeOk(disk.codes);
    }
    if disk.slots != map[] {
      assert |disk.slots| > 0;
      assert Uses(disk.slots, |disk.slots| - 1);
    }
  }

  lemma NextCodeOk(m: Map)
    requires CodesOk(m) && m != map[]
    ensures NextOk(m, Top(m, MAX_CODE - 1) + 1)
  {
    if |m| < MAX_CODE {
      TopIsCount(m, MAX_CODE - 1);
    } else {
      assert Uses(m, MAX_CODE - 1);
    }
  }

  /** The slab's own object: identities are minted in place. */
  class RunSlab {
    var codes: Map
    var nextCode: nat
    var slots: Map
    var active: nat

    ghost function View(): Slab
      reads this
    {
      Slab(Books(codes, slots), nextCode, active)
    }

    constructor ()
      ensures View() == NEW_SLAB
    {
      codes, nextCode, slots, active := map[], 1, map[], 0;
    }

    method SlotForAgent(a: Name) returns (slot: nat)
      modifies `slots, `active
      ensures View() == SlotFor(old(View()), a)
      ensures a in slots && slot == slots[a]
    {
      if a in slots {
        return slots[a];
      }
      slot := active;
      slots := slots[a := slot];
      active := active + 1;
    }

    method CodeForHaulier(h: Name) returns (code: nat)
      modifies `codes, `nextCode
      ensures View() == CodeFor(old(View()), h)
      ensures h in codes && code == codes[h]
    {
      if h in codes {
        return codes[h];
      }
      if nextCode > MAX_CODE {
        code := MAX_CODE;
      } else {
        code := nextCode;
        nextCode := nextCode + 1;
      }
      codes := codes[h := code];
    }

    method UpdatePosition(a: Name, h: Option<Name>) returns (slot: nat, code: nat)
      modifies this
      ensures View() == Positioned(old(View()), a, h)
    {
      slot := SlotForAgent(a);
      code := 0;
      if h.Some? {
        code := CodeForHaulier(h.value);
      }
    }
  }

  // ---------------------------------------------------------------- a run's life

  /** Entries of `incoming` that neither rename a known key nor take a used value. */
  function NonClashing(current: Map, incoming: Map): Map {
    map n | n in incoming && n !in current && !Uses(current, incoming[n]) :: incoming[n]
  }

  /** A restore that comes after positions: the live assignment stays, the rest is merged in. */
  ghost function LateSeeded(s: Slab, disk: Books): Slab {
    var codes := s.books.codes + NonClashing(s.books.codes, disk.codes);
    var slots := s.books.slots + NonClashing(s.books.slots, disk.slots);
    Slab(Books(codes, slots),
         if codes == s.books.codes then s.nextCode else Max(s.nextCode, Top(codes, MAX_CODE - 1) + 1),
         if slots == s.books.slots then s.active else Max(s.active, Highest(slots) + 1))
  }

  /** Who persists: the sweep, or a terminal on the consumer thread. */
  datatype Who = Sweep | Terminal

  /** `pending` holds the merged book of each persist between its read and its write. */
  datatype Life = Life(store: Store, slab: Option<Slab>, restored: bool, finalized: bool, pending: map<Who, Books>)

  datatype Step =
    | Position(truck: Name, haulier: Option<Name>)
    | Restore(readable: bool)
    | BeginPersist(who: Who, readable: bool)
    | EndPersist(who: Who, written: bool)
    | Finish
    | Restart

  function LiveBooks(l: Life): Books {
    if l.slab.Some? then l.slab.value.books else EMPTY
  }

  function ReadBooks(l: Life, readable: bool): Books {
    if readable then l.store.disk else EMPTY
  }

  /** The LRU does not evict the run; everything else may fail or overlap. */
  predicate Enabled(l: Life, s: Step) {
    match s
    case Position(_, _) => !l.finalized
    case Restore(_) => !l.restored && l.store.sig.None? && !l.finalized
    case BeginPersist(who, _) => who !in l.pending
    case EndPersist(who, _) => who in l.pending
    case _ => true
  }

  predicate SkipsWrite(l: Life, who: Who)
    requires who in l.pending
  {
    who == Sweep && l.store.sig == Some(Sizes(l.pending[who]))
  }

  function Began(l: Life, who: Who, readable: bool): Life {
    l.(pending := l.pending[who := Merged(ReadBooks(l, readable), LiveBooks(l))],
       store := l.store.(conflicts := l.store.conflicts + Conflicts(ReadBooks(l, readable), LiveBooks(l))))
  }

  function Ended(l: Life, who: Who, written: bool): Life
    requires who in l.pending
  {
    var p := l.pending[who];
    if SkipsWrite(l, who) || !written then l.(pending := l.pending - {who})
    else l.(pending := l.pending - {who}, store := Store(Upserted(l.store.disk, p), Some(Sizes(p)), l.store.conflicts))
  }

  ghost function Restored(l: Life): Life {
    if l.store.disk == EMPTY then l.(restored := true)
    else if l.slab.None? then l.(restored := true, slab := Some(Adopted(l.store.disk)))
    else l.(restored := true, slab := Some(LateSeeded(l.slab.value, l.store.disk)))
  }

  ghost function Apply(l: Life, s: Step): Life
    requires Enabled(l, s)
  {
    match s
    case Position(a, h) => l.(slab := Some(Positioned(if l.slab.Some? then l.slab.value else NEW_SLAB, a, h)))
    case Restore(readable) => if readable then Restored(l) else l
    case BeginPersist(who, readable) => Began(l, who, readable)
    case EndPersist(who, written) => Ended(l, who, written)
    case Finish => l.(slab := None, finalized := true)
    case Restart => Life(Store(l.store.disk, None, 0), None, false, false, map[])
  }

  /** A persist that nothing interrupts is the one call of `PersistRunMeta`. */
  lemma PersistInTwoHalves(l: Life, who: Who, readable: bool, written: bool)
    requires who !in l.pending
    ensures var c := Call(Resident(LiveBooks(l)), who == Terminal, who == Terminal, readable, written);
            Apply(Apply(l, BeginPersist(who, readable)), EndPersist(who, written)).store == Persisted(l.store, c)
  {
  }

  function Birth(): Life {
    Life(Store(EMPTY, None, 0), None, false, false, map[])
  }

  ghost predicate IsLife(trace: seq<Life>, steps: seq<Step>) {
    && |trace| == |steps| + 1 && trace[0] == Birth()
    && forall i :: 0 <= i < |steps| ==> Enabled(trace[i], steps[i]) && trace[i + 1] == Apply(trace[i], steps[i])
  }

  ghost predicate Reachable(l: Life) {
    exists trace: seq<Life>, steps: seq<Step> :: IsLife(trace, steps) && trace[|steps|] == l
  }

  /** The restore has completed before the first position. */
  predicate InOrder(l: Life, s: Step) {
    s.Position? ==> l.restored
  }

  /** And no persist begins while another is under way. */
  predicate Careful(l: Life, s: Step) {
    InOrder(l, s) && (s.BeginPersist? ==> l.pending == map[])
  }

  ghost predicate IsOrderlyLife(trace: seq<Life>, steps: seq<Step>) {
    IsLife(trace, steps) && forall i :: 0 <= i < |steps| ==> InOrder(trace[i], steps[i])
  }

  /** Reads and writes may still fail. */
  ghost predicate IsCarefulLife(trace: seq<Life>, steps: seq<Step>) {
    IsLife(trace, steps) && forall i :: 0 <= i < |steps| ==> Careful(trace[i], steps[i])
  }

  // ---------------------------------------------------------------- what an orderly life keeps

  ghost predicate SlabFits(l: Life) {
    if l.slab.Some? then
      && SlabOk(l.slab.value) && l.restored && BooksWithin(l.store.disk, l.slab.value.books)
      && l.slab.value.books != EMPTY
    else l.restored && !l.finalized ==> l.store.disk == EMPTY
  }

  ghost predicate PendingFits(l: Life, p: Books) {
    && BooksOk(p)
    && (l.slab.Some? ==> BooksWithin(p, l.slab.value.books))
    && (l.slab.None? && l.restored && !l.finalized ==> p == EMPTY)
    && (!l.restored ==> p == l.store.disk || p == EMPTY)
  }

  /** Each part of the signature is the size on disk, or zero when that map was not written. */
  predicate SigFits(s: Store) {
    s.sig.Some? ==>
      && (s.sig.value.0 == 0 || s.sig.value.0 == |s.disk.codes|)
      && (s.sig.value.1 == 0 || s.sig.value.1 == |s.disk.slots|)
  }

  ghost predicate AllPendingFit(l: Life) {
    forall who :: who in l.pending ==> PendingFits(l, l.pending[who])
  }

  ghost predicate Inv(l: Life) {
    && BooksOk(l.store.disk) && l.store.conflicts == 0 && SigFits(l.store)
    && SlabFits(l) && AllPendingFit(l)
  }

  lemma PositionKeeps(l: Life, a: Name, h: Option<Name>)
    requires Inv(l) && Enabled(l, Position(a, h)) && l.restored
    ensures Inv(Apply(l, Position(a, h)))
  {
    var s := if l.slab.Some? then l.slab.value else NEW_SLAB;
    assert SlabOk(s);
    SlotForOk(s, a);
    if h.Some? {
      CodeForOk(SlotFor(s, a), h.value);
    }
    var n := Apply(l, Position(a, h));
    var t := n.slab.value;
    assert a in SlotFor(s, a).books.slots;
    assert a in t.books.slots;
    WithinTrans(l.store.disk, s.books, t.books);
    forall who | who in n.pending
      ensures PendingFits(n, n.pending[who])
    {
      assert PendingFits(l, l.pending[who]);
      WithinTrans(l.pending[who], s.books, t.books);
    }
  }

  lemma WithinTrans(a: Books, b: Books, c: Books)
    requires BooksWithin(a, b)
    ensures BooksWithin(b, c) ==> BooksWithin(a, c)
  {
  }

  /** Merging with what is already contained adds nothing and disagrees with nothing. */
  lemma MergeContained(disk: Books, live: Books)
    requires BooksWithin(disk, live)
    ensures Merged(disk, live) == live && Conflicts(disk, live) == 0
  {
    assert live.codes + disk.codes == live.codes && live.slots + disk.slots == live.slots;
    assert Disagreeing(disk.codes, live.codes) == {} && Disagreeing(disk.slots, live.slots) == {};
  }

  lemma MergeNothing(disk: Books)
    ensures Merged(disk, EMPTY) == disk && Conflicts(disk, EMPTY) == 0
  {
    assert map[] + disk.codes == disk.codes && map[] + disk.slots == disk.slots;
    assert Disagreeing(disk.codes, map[]) == {} && Disagreeing(disk.slots, map[]) == {};
  }

  /** What a persist of an orderly life reads and merges: the live books, or the disk's, or nothing. */
  lemma ReadFits(l: Life, readable: bool)
    requires Inv(l)
    ensures var p := Merged(ReadBooks(l, readable), LiveBooks(l));
            && p == (if l.slab.Some? then LiveBooks(l) else ReadBooks(l, readable))
            && Conflicts(ReadBooks(l, readable), LiveBooks(l)) == 0
            && PendingFits(l, p) && SparesBooks(l.store.disk, p)
  {
    if l.slab.Some? {
      MergeContained(ReadBooks(l, readable), LiveBooks(l));
    } else {
      MergeNothing(ReadBooks(l, readable));
    }
  }

  lemma BeginKeeps(l: Life, who: Who, readable: bool)
    requires Inv(l) && Enabled(l, BeginPersist(who, readable))
    ensures Inv(Apply(l, BeginPersist(who, readable)))
  {
    ReadFits(l, readable);
    var n := Apply(l, BeginPersist(who, readable));
    forall w | w in n.pending
      ensures PendingFits(n, n.pending[w])
    {
      assert w != who ==> PendingFits(l, l.pending[w]);
    }
  }

  lemma UpsertFits(disk: Books, p: Books, live: Books)
    requires BooksOk(disk) && BooksOk(p) && BooksWithin(disk, live) && BooksWithin(p, live)
    ensures BooksOk(Upserted(disk, p)) && BooksWithin(Upserted(disk, p), live)
  {
  }

  lemma EndSig(l: Life, who: Who)
    requires SigFits(l.store) && who in l.pending
    ensures forall written :: SigFits(Ended(l, who, written).store)
  {
  }

  lemma UpsertNothing(disk: Books, p: Books)
    requires p == disk || p == EMPTY
    ensures Upserted(disk, p) == disk
  {
  }

  lemma UpsertOk(disk: Books, p: Books)
    requires BooksOk(disk) && BooksOk(p)
    ensures BooksOk(Upserted(disk, p))
  {
  }

  lemma EndKeeps(l: Life, who: Who, written: bool)
    requires Inv(l) && Enabled(l, EndPersist(who, written))
    ensures Inv(Apply(l, EndPersist(who, written)))
  {
    var n, p := Apply(l, EndPersist(who, written)), l.pending[who];
    assert PendingFits(l, p);
    if l.slab.Some? {
      UpsertFits(l.store.disk, p, LiveBooks(l));
    } else if !l.finalized || !l.restored {
      UpsertNothing(l.store.disk, p);
      assert n.store.disk == l.store.disk;
    } else {
      UpsertOk(l.store.disk, p);
    }
    EndSig(l, who);
    forall w | w in n.pending
      ensures PendingFits(n, n.pending[w])
    {
      assert PendingFits(l, l.pending[w]);
    }
  }

  lemma RestoreKeeps(l: Life, readable: bool)
    requires Inv(l) && Enabled(l, Restore(readable))
    ensures Inv(Apply(l, Restore(readable)))
  {
    AdoptedOk(l.store.disk);
    var n := Apply(l, Restore(readable));
    forall w | w in n.pending
      ensures PendingFits(n, n.pending[w])
    {
      assert PendingFits(l, l.pending[w]);
    }
  }

  lemma FinishKeeps(l: Life)
    requires Inv(l)
    ensures Inv(Apply(l, Finish))
  {
    var n := Apply(l, Finish);
    forall w | w in n.pending
      ensures PendingFits(n, n.pending[w])
    {
      assert PendingFits(l, l.pending[w]);
    }
  }

  lemma RestartKeeps(l: Life)
    requires Inv(l)
    ensures Inv(Apply(l, Step.Restart))
  {
  }

  lemma StepKeeps(l: Life, s: Step)
    requires Inv(l) && Enabled(l, s) && InOrder(l, s)
    ensures Inv(Apply(l, s))
  {
    match s
    case Position(a, h) => PositionKeeps(l, a, h);
    case Restore(readable) => RestoreKeeps(l, readable);
    case BeginPersist(who, readable) => BeginKeeps(l, who, readable);
    case EndPersist(who, written) => EndKeeps(l, who, written);
    case Finish => FinishKeeps(l);
    case Restart => RestartKeeps(l);
  }

  lemma {:induction false} LifeInv(trace: seq<Life>, steps: seq<Step>, i: nat)
    requires IsOrderlyLife(trace, steps) && i < |trace|
    ensures Inv(trace[i])
  {
    if i > 0 {
      LifeInv(trace, steps, i - 1);
      StepKeeps(trace[i - 1], steps[i - 1]);
    }
  }

  /** Over any life in which the restore comes before the first position, whatever reads and writes fail
      and however persists overlap: no conflict is ever counted; slots are one to one, in memory and on
      disk; haulier codes are exactly as long as there are at most 255 names. */
  lemma BooksStayInjective(trace: seq<Life>, steps: seq<Step>, i: nat)
    requires IsOrderlyLife(trace, steps) && i < |trace|
    ensures trace[i].store.conflicts == 0
    ensures Injective(LiveBooks(trace[i]).slots) && Injective(trace[i].store.disk.slots)
    ensures Injective(trace[i].store.disk.codes) <==> |trace[i].store.disk.codes| <= MAX_CODE
    ensures Injective(LiveBooks(trace[i]).codes) <==> |LiveBooks(trace[i]).codes| <= MAX_CODE
  {
    LifeInv(trace, steps, i);
  }

  // ---------------------------------------------------------------- what persists one at a time keep

  /** Writing any pending book would lose nothing. */
  ghost predicate PendingSpares(l: Life) {
    forall who :: who in l.pending ==> SparesBooks(l.store.disk, l.pending[who])
  }

  lemma CarefulKeepsSpares(l: Life, s: Step)
    requires Inv(l) && PendingSpares(l) && |l.pending| <= 1 && Enabled(l, s) && Careful(l, s)
    ensures PendingSpares(Apply(l, s)) && |Apply(l, s).pending| <= 1
    ensures BooksWithin(l.store.disk, Apply(l, s).store.disk)
  {
    match s
    case BeginPersist(who, readable) =>
      ReadFits(l, readable);
    case EndPersist(who, written) =>
      UpsertKeepsIff(l.store.disk, l.pending[who]);
      OnlyOne(l.pending, who);
    case _ =>
  }

  lemma OnlyOne(pending: map<Who, Books>, who: Who)
    requires who in pending && |pending| <= 1
    ensures pending - {who} == map[]
  {
    assert pending.Keys == {who} by {
      assert {who} <= pending.Keys && |pending.Keys| == |pending|;
      assert pending.Keys == {who} + (pending.Keys - {who});
      assert |pending.Keys| == |{who}| + |pending.Keys - {who}|;
    }
  }

  lemma {:induction false} CarefulInv(trace: seq<Life>, steps: seq<Step>, i: nat)
    requires IsCarefulLife(trace, steps) && i < |trace|
    ensures Inv(trace[i]) && PendingSpares(trace[i]) && |trace[i].pending| <= 1
  {
    if i > 0 {
      CarefulInv(trace, steps, i - 1);
      LifeInv(trace, steps, i);
      CarefulKeepsSpares(trace[i - 1], steps[i - 1]);
    }
  }

  /** What is on disk at one moment is there, unchanged, at every later one, even when reads fail. */
  lemma DiskOnlyGrows(trace: seq<Life>, steps: seq<Step>, i: nat, j: nat)
    requires IsCarefulLife(trace, steps) && i <= j < |trace|
    ensures BooksWithin(trace[i].store.disk, trace[j].store.disk)
  {
    var disks := seq(|trace|, k requires 0 <= k < |trace| => trace[k].store.disk);
    forall k | 0 <= k < |disks| - 1
      ensures BooksWithin(disks[k], disks[k + 1])
    {
      CarefulStep(trace, steps, k);
    }
    ChainGrows(disks, i, j);
  }

  lemma {:induction false} ChainGrows(disks: seq<Books>, i: nat, j: nat)
    requires i <= j < |disks| && forall k :: 0 <= k < |disks| - 1 ==> BooksWithin(disks[k], disks[k + 1])
    ensures BooksWithin(disks[i], disks[j])
    decreases j
  {
    if i < j {
      ChainGrows(disks, i, j - 1);
      WithinTrans(disks[i], disks[j - 1], disks[j]);
    }
  }

  lemma CarefulStep(trace: seq<Life>, steps: seq<Step>, i: nat)
    requires IsCarefulLife(trace, steps) && i < |steps|
    ensures BooksWithin(trace[i].store.disk, trace[i + 1].store.disk)
  {
    CarefulInv(trace, steps, i);
    CarefulKeepsSpares(trace[i], steps[i]);
  }

  // ---------------------------------------------------------------- when persists overlap

  ghost predicate Comparable(a: Map, b: Map) {
    Within(a, b) || Within(b, a)
  }

  ghost predicate Nested(a: Books, b: Books) {
    Comparable(a.codes, b.codes) && Comparable(a.slots, b.slots)
  }

  /** The disk and the books on their way to it are pictures of one growing book: of any two, map by map,
      one holds the other. */
  ghost predicate AllNested(l: Life) {
    && (forall who :: who in l.pending ==> Nested(l.store.disk, l.pending[who]))
    && (Sweep in l.pending && Terminal in l.pending ==> Nested(l.pending[Sweep], l.pending[Terminal]))
  }

  lemma HoldsBoth(a: Books, b: Books, live: Books)
    requires BooksWithin(a, live)
    ensures Nested(a, live) && Nested(live, a) && Nested(a, EMPTY) && Nested(EMPTY, a) && Nested(a, a)
  {
  }

  /** What a persist reads is nested with everything. */
  lemma ReadNests(l: Life, readable: bool, other: Books)
    requires Inv(l) && Nested(l.store.disk, other) && (l.slab.Some? ==> BooksWithin(other, LiveBooks(l)))
    ensures var p := Merged(ReadBooks(l, readable), LiveBooks(l)); Nested(other, p) && Nested(p, other)
  {
    ReadFits(l, readable);
    if l.slab.Some? {
      HoldsBoth(other, l.store.disk, LiveBooks(l));
    } else {
      HoldsBoth(other, l.store.disk, other);
    }
  }

  lemma BeginNests(l: Life, who: Who, readable: bool)
    requires Inv(l) && AllNested(l) && Enabled(l, BeginPersist(who, readable))
    ensures AllNested(Began(l, who, readable))
  {
    var n, p := Began(l, who, readable), Merged(ReadBooks(l, readable), LiveBooks(l));
    HoldsBoth(l.store.disk, l.store.disk, l.store.disk);
    HoldsBoth(p, p, p);
    ReadNests(l, readable, l.store.disk);
    forall v | v in l.pending
      ensures Nested(l.pending[v], p) && Nested(p, l.pending[v])
    {
      assert PendingFits(l, l.pending[v]);
      ReadNests(l, readable, l.pending[v]);
    }
  }

  lemma NestedBack(a: Books, b: Books)
    requires Nested(a, b)
    ensures Nested(b, a)
  {
  }

  lemma EndNests(l: Life, who: Who, written: bool)
    requires AllNested(l) && who in l.pending
    ensures AllNested(Ended(l, who, written))
  {
    var n := Ended(l, who, written);
    forall v | v in n.pending
      ensures Nested(n.store.disk, n.pending[v])
    {
      assert v != who && (v == Sweep || who == Sweep);
      NestedBack(l.pending[Sweep], l.pending[Terminal]);
      assert Nested(l.store.disk, l.pending[v]) && Nested(l.pending[who], l.pending[v]);
    }
  }

  lemma {:induction false} LifeNests(trace: seq<Life>, steps: seq<Step>, i: nat)
    requires IsOrderlyLife(trace, steps) && i < |trace|
    ensures AllNested(trace[i])
  {
    if i > 0 {
      LifeNests(trace, steps, i - 1);
      LifeInv(trace, steps, i - 1);
      match steps[i - 1]
      case BeginPersist(who, readable) => BeginNests(trace[i - 1], who, readable);
      case EndPersist(who, written) => EndNests(trace[i - 1], who, written);
      case _ =>
    }
  }

  /** The map is not written, or has as many names as the one it replaces. */
  predicate AsLarge(written: Map, disk: Map) {
    written == map[] || |disk| <= |written|
  }

  lemma SparesIffAsLarge(disk: Map, written: Map)
    requires Comparable(disk, written)
    ensures Spares(disk, written) <==> AsLarge(written, disk)
  {
    if Within(disk, written) {
      SmallerInside(disk, written);
    } else {
      SmallerInside(written, disk);
      if |disk| <= |written| {
        SameSizeSame(written, disk);
      }
    }
  }

  lemma SmallerInside(a: Map, b: Map)
    requires Within(a, b)
    ensures |a| <= |b|
  {
    assert a.Keys <= b.Keys && |a.Keys| == |a| && |b.Keys| == |b|;
    assert b.Keys == a.Keys + (b.Keys - a.Keys);
  }

  /** In every life with the restore before the first position, whatever fails and however persists
      overlap, with any number of names: a write keeps everything on disk exactly if it is skipped, or each
      map it writes has at least as many names as the disk's.  So it takes an entry off the disk exactly if
      another write has by then put more names there. */
  lemma WriteKeepsIff(trace: seq<Life>, steps: seq<Step>, i: nat, who: Who)
    requires IsOrderlyLife(trace, steps) && i < |trace| && who in trace[i].pending
    ensures var l, p := trace[i], trace[i].pending[who];
            BooksWithin(l.store.disk, Ended(l, who, true).store.disk)
            <==> SkipsWrite(l, who) || (AsLarge(p.codes, l.store.disk.codes) && AsLarge(p.slots, l.store.disk.slots))
  {
    LifeNests(trace, steps, i);
    var l, p := trace[i], trace[i].pending[who];
    assert Nested(l.store.disk, p);
    UpsertKeepsIff(l.store.disk, p);
    SparesIffAsLarge(l.store.disk.codes, p.codes);
    SparesIffAsLarge(l.store.disk.slots, p.slots);
  }

  // ---------------------------------------------------------------- when the restore comes late

  /** Merging live codes that are one to one, restored or not, keeps the codes one to one exactly if every
      new name's code lies above the codes on disk. */
  lemma MergedInjectiveIff(disk: Books, live: Books)
    requires BooksOk(disk) && |disk.codes| <= MAX_CODE
    requires Injective(live.codes) && forall n :: n in live.codes ==> live.codes[n] >= 1
    ensures Injective(Merged(disk, live).codes)
       <==> forall n :: n in live.codes && n !in disk.codes ==> live.codes[n] > |disk.codes|
  {
    UnionInjectiveIff(disk.codes, live.codes);
  }

  lemma UnionInjectiveIff(disk: Map, live: Map)
    requires CodesOk(disk) && |disk| <= MAX_CODE && Injective(live) && forall n :: n in live ==> live[n] >= 1
    ensures Injective(live + disk) <==> forall n :: n in live && n !in disk ==> live[n] > |disk|
  {
    var merged := live + disk;
    forall n | n in live && n !in disk && live[n] <= |disk|
      ensures !Injective(merged)
    {
      assert Uses(disk, live[n]);
      var m :| m in disk && disk[m] == live[n];
      assert m in merged && n in merged && merged[m] == merged[n];
    }
  }

  // ---------------------------------------------------------------- the runs that lose or collide

  lemma ReachStep(l: Life, s: Step)
    requires Reachable(l) && Enabled(l, s)
    ensures Reachable(Apply(l, s))
  {
    var trace: seq<Life>, steps: seq<Step> :| IsLife(trace, steps) && trace[|steps|] == l;
    assert IsLife(trace + [Apply(l, s)], steps + [s]);
  }

  /** The books of one truck and its haulier. */
  function One(n: Name): Books {
    Books(map[n := 1], map[n := 0])
  }

  /** Truck `n` alone, in a process that finds `disk`. */
  function Alone(disk: Books, n: Name, restored: bool): Life {
    Life(Store(disk, None, 0), Some(Slab(One(n), 2, 1)), restored, false, map[])
  }

  lemma ReachAlone()
    ensures Reachable(Alone(EMPTY, 1, true)) && Inv(Alone(EMPTY, 1, true))
  {
    assert IsLife([Birth()], []);
    ReachStep(Birth(), Restore(true));
    StepKeeps(Birth(), Restore(true));
    var ready := Apply(Birth(), Restore(true));
    ReachStep(ready, Position(1, Some(1)));
    StepKeeps(ready, Position(1, Some(1)));
    assert Apply(ready, Position(1, Some(1))) == Alone(EMPTY, 1, true);
  }

  /** Truck 1 is in the sweep's book when truck 2 arrives. */
  function TwoTrucks(disk: Books, sig: Option<Signature>, pending: map<Who, Books>): Life {
    Life(Store(disk, sig, 0), Some(Slab(Books(map[1 := 1, 2 := 2], map[1 := 0, 2 := 1]), 3, 2)), true, false, pending)
  }

  lemma ReachFirstRead()
    ensures Reachable(TwoTrucks(EMPTY, None, map[Sweep := One(1)]))
  {
    ReachAlone();
    var l := Alone(EMPTY, 1, true);
    MergeContained(EMPTY, One(1));
    ReachStep(l, BeginPersist(Sweep, true));
    var a := Apply(l, BeginPersist(Sweep, true));
    assert a.pending == map[Sweep := One(1)] && a.store == l.store;
    ReachStep(a, Position(2, Some(2)));
    assert Apply(a, Position(2, Some(2))) == TwoTrucks(EMPTY, None, map[Sweep := One(1)]);
  }

  lemma ReachSecondRead()
    ensures var both := LiveBooks(TwoTrucks(EMPTY, None, map[]));
            Reachable(TwoTrucks(EMPTY, None, map[Sweep := One(1), Terminal := both]))
  {
    ReachFirstRead();
    var b := TwoTrucks(EMPTY, None, map[Sweep := One(1)]);
    MergeContained(EMPTY, LiveBooks(b));
    ReachStep(b, BeginPersist(Terminal, true));
  }

  /** The sweep reads, a second truck arrives, the terminal reads and writes; the sweep's write then
      takes the second truck off the disk. */
  lemma OverlapLosesAnEntry() returns (o: Life)
    ensures Reachable(o) && Sweep in o.pending
    ensures !BooksWithin(o.store.disk, Apply(o, EndPersist(Sweep, true)).store.disk)
  {
    ReachSecondRead();
    var both := LiveBooks(TwoTrucks(EMPTY, None, map[]));
    var c := TwoTrucks(EMPTY, None, map[Sweep := One(1), Terminal := both]);
    ReachStep(c, EndPersist(Terminal, true));
    o := Apply(c, EndPersist(Terminal, true));
    assert 2 in both.slots && 2 in both.codes && 2 !in One(1).slots;
    assert o.store.disk == both && o.pending[Sweep] == One(1);
    UpsertKeepsIff(both, One(1));
    SizesDiffer();
  }

  lemma SizesDiffer()
    ensures Sizes(Books(map[1 := 1, 2 := 2], map[1 := 0, 2 := 1])) != Sizes(One(1))
    ensures One(1).slots != map[]
  {
    var two: Map := map[1 := 0, 2 := 1];
    assert |One(1).slots| == 1 && |two| == 2;
  }

  lemma ReachPersisted()
    ensures Reachable(Life(Store(One(1), None, 0), None, false, false, map[]))
  {
    ReachAlone();
    var l := Alone(EMPTY, 1, true);
    MergeContained(EMPTY, One(1));
    ReachStep(l, BeginPersist(Sweep, true));
    var a := Apply(l, BeginPersist(Sweep, true));
    ReachStep(a, EndPersist(Sweep, true));
    var b := Apply(a, EndPersist(Sweep, true));
    assert b.store.disk == One(1);
    ReachStep(b, Step.Restart);
  }

  /** The first process persists truck 1; the second fails to restore and records truck 2. */
  lemma ReachUnrestored()
    ensures Reachable(Alone(One(1), 2, false))
  {
    ReachPersisted();
    var c := Life(Store(One(1), None, 0), None, false, false, map[]);
    ReachStep(c, Restore(false));
    ReachStep(c, Position(2, Some(2)));
    assert Apply(c, Position(2, Some(2))) == Alone(One(1), 2, false);
  }

  /** Two faults, a failed restore and then a failed read, lose an entry; by `DiskOnlyGrows` the failed
      read alone does not. */
  lemma FailedRestoreAndReadLoseAnEntry() returns (l: Life)
    ensures Reachable(l) && Sweep in l.pending
    ensures !BooksWithin(l.store.disk, Apply(l, EndPersist(Sweep, true)).store.disk)
  {
    ReachUnrestored();
    var u := Alone(One(1), 2, false);
    ReachStep(u, BeginPersist(Sweep, false));
    l := Apply(u, BeginPersist(Sweep, false));
    MergeContained(EMPTY, One(2));
    UpsertKeepsIff(One(1), One(2));
    assert 1 in One(1).codes && 1 !in One(2).codes && 2 in One(2).codes;
  }

  /** A failed restore alone puts two names on one code, on disk, with no conflict counted. */
  lemma FailedRestoreCollides() returns (l: Life)
    ensures Reachable(l) && l.store.conflicts == 0
    ensures |l.store.disk.codes| == 2 && !Injective(l.store.disk.codes)
  {
    var p := ReachCollidingRead();
    ReachStep(p, EndPersist(Sweep, true));
    l := Apply(p, EndPersist(Sweep, true));
    assert 1 in p.pending[Sweep].codes && 2 in p.pending[Sweep].codes;
  }

  lemma ReachCollidingRead() returns (p: Life)
    ensures Reachable(p) && Sweep in p.pending && p.store == Store(One(1), None, 0)
    ensures p.pending[Sweep].codes == map[1 := 1, 2 := 1]
  {
    ReachUnrestored();
    var u := Alone(One(1), 2, false);
    ReachStep(u, BeginPersist(Sweep, true));
    p := Apply(u, BeginPersist(Sweep, true));
    assert Disagreeing(One(1).codes, One(2).codes) == {} && Disagreeing(One(1).slots, One(2).slots) == {};
  }
}
