/** The code books of one run: haulier to code and truck to slot, minted in the hot tier, merged with
    what is on disk, and restored after a restart. */
module CodeBook {
  import opened Options

  type Name = nat
  type Map = map<Name, nat>

  datatype Books = Books(codes: Map, slots: Map)

  const EMPTY: Books := Books(map[], map[])

  /** Every entry of `a` is in `b`. */
  ghost predicate Within(a: Map, b: Map) {
    forall n :: n in a ==> n in b && b[n] == a[n]
  }

  ghost predicate BooksWithin(a: Books, b: Books) {
    Within(a.codes, b.codes) && Within(a.slots, b.slots)
  }

  // ---------------------------------------------------------------- merging

  function Disagreeing(persisted: Map, live: Map): set<Name> {
    set n | n in persisted && n in live && live[n] != persisted[n]
  }

  /** `_merge_code_map`: the union; where the two disagree the persisted value wins and is counted. */
  method MergeCodeMap(persisted: Map, live: Map) returns (merged: Map, conflicts: nat)
    ensures merged == live + persisted && conflicts == |Disagreeing(persisted, live)|
  {
    merged := live;
    ghost var bad: set<Name> := {};
    conflicts := 0;
    var todo := persisted.Keys;
    while todo != {}
      invariant todo <= persisted.Keys
      invariant merged.Keys == live.Keys + (persisted.Keys - todo)
      invariant forall n :: n in merged ==>
                  merged[n] == if n in persisted && n !in todo then persisted[n] else live[n]
      invariant bad == (set n | n in persisted.Keys - todo && n in live && live[n] != persisted[n])
      invariant conflicts == |bad|
      decreases todo
    {
      var k :| k in todo;
      todo := todo - {k};
      if k in merged && merged[k] != persisted[k] {
        conflicts := conflicts + 1;
        bad := bad + {k};
      }
      merged := merged[k := persisted[k]];
    }
    assert bad == Disagreeing(persisted, live);
  }

  function Merged(persisted: Books, live: Books): Books {
    Books(live.codes + persisted.codes, live.slots + persisted.slots)
  }

  function Conflicts(persisted: Books, live: Books): nat {
    |Disagreeing(persisted.codes, live.codes)| + |Disagreeing(persisted.slots, live.slots)|
  }

  method MergeBooks(persisted: Books, live: Books) returns (merged: Books, conflicts: nat)
    ensures merged == Merged(persisted, live) && conflicts == Conflicts(persisted, live)
  {
    var codes, bad := MergeCodeMap(persisted.codes, live.codes);
    var slots, worse := MergeCodeMap(persisted.slots, live.slots);
    merged, conflicts := Books(codes, slots), bad + worse;
  }

  type Signature = (nat, nat)

  function Sizes(b: Books): Signature {
    (|b.codes|, |b.slots|)
  }

  /** The row after an upsert: an empty map is never written. */
  function Upserted(disk: Books, merged: Books): Books {
    Books(if merged.codes == map[] then disk.codes else merged.codes,
          if merged.slots == map[] then disk.slots else merged.slots)
  }

  // ---------------------------------------------------------------- persisting

  /** The hot tier as a persist finds it: not built, the run not in it, or its books. */
  datatype Hot = NoTier | NotResident | Resident(books: Books)

  datatype Store = Store(disk: Books, sig: Option<Signature>, conflicts: nat)

  /** `status` and `force` as in the call; `readOk` and `writeOk` are how the store behaves. */
  datatype Call = Call(hot: Hot, status: bool, force: bool, readOk: bool, writeOk: bool)

  function LiveOf(hot: Hot): Books {
    if hot.Resident? then hot.books else EMPTY
  }

  predicate Leaves(c: Call) {
    !c.hot.Resident? && !c.status && !c.force
  }

  function Existing(s: Store, c: Call): Books {
    if c.readOk then s.disk else EMPTY
  }

  predicate Skips(s: Store, c: Call) {
    !c.force && !c.status && s.sig == Some(Sizes(Merged(Existing(s, c), LiveOf(c.hot))))
  }

  function Persisted(s: Store, c: Call): Store {
    if Leaves(c) then s
    else
      var merged := Merged(Existing(s, c), LiveOf(c.hot));
      var conflicts := s.conflicts + Conflicts(Existing(s, c), LiveOf(c.hot));
      if Skips(s, c) || !c.writeOk then Store(s.disk, s.sig, conflicts)
      else Store(Upserted(s.disk, merged), Some(Sizes(merged)), conflicts)
  }

  class RunMeta {
    var disk: Books
    var sig: Option<Signature>
    var conflicts: nat

    ghost function View(): Store
      reads this
    {
      Store(disk, sig, conflicts)
    }

    constructor (disk: Books)
      ensures View() == Store(disk, None, 0)
    {
      this.disk, sig, conflicts := disk, None, 0;
    }

    /** `raised` when the upsert fails; the signature is then not recorded. */
    method PersistRunMeta(c: Call) returns (wrote: bool, raised: bool)
      modifies this
      ensures View() == Persisted(old(View()), c)
      ensures raised <==> !Leaves(c) && !Skips(old(View()), c) && !c.writeOk
      ensures wrote <==> !Leaves(c) && !Skips(old(View()), c) && c.writeOk
    {
      wrote, raised := false, false;
      if c.hot.NoTier? && !c.status && !c.force {
        return;
      }
      if c.hot.NotResident? && !c.status && !c.force {
        return;
      }
      var merged := MergeWithDisk(c);
      wrote, raised := Commit(c, merged);
    }

    /** Write the row, unless the signature says there is nothing new. */
    method Commit(c: Call, merged: Books) returns (wrote: bool, raised: bool)
      modifies `disk, `sig
      ensures var skips := !c.force && !c.status && old(sig) == Some(Sizes(merged));
              && (raised <==> !skips && !c.writeOk) && (wrote <==> !skips && c.writeOk)
              && disk == (if wrote then Upserted(old(disk), merged) else old(disk))
              && sig == if wrote then Some(Sizes(merged)) else old(sig)
    {
      if !c.force && !c.status && sig == Some((|merged.codes|, |merged.slots|)) {
        return false, false;
      }
      if !c.writeOk {
        return false, true;
      }
      WriteRow(merged);
      return true, false;
    }

    /** Read, merge and count; a failed read counts as an empty row. */
    method MergeWithDisk(c: Call) returns (merged: Books)
      modifies `conflicts
      ensures merged == Merged(Existing(old(View()), c), LiveOf(c.hot))
      ensures conflicts == old(conflicts) + Conflicts(Existing(old(View()), c), LiveOf(c.hot))
    {
      var live := if c.hot.Resident? then c.hot.books else EMPTY;
      var existing := if c.readOk then disk else EMPTY;
      var found;
      merged, found := MergeBooks(existing, live);
      conflicts := conflicts + found;
    }

    method WriteRow(merged: Books)
      modifies `disk, `sig
      ensures disk == Upserted(old(disk), merged) && sig == Some(Sizes(merged))
    {
      disk := Books(if merged.codes == map[] then disk.codes else merged.codes,
                    if merged.slots == map[] then disk.slots else merged.slots);
      sig := Some((|merged.codes|, |merged.slots|));
    }
  }

  // ---------------------------------------------------------------- persists, conflicts and restarts

  datatype Event = Persist(call: Call) | Restart

  function After(s: Store, events: seq<Event>): Store {
    if events == [] then s
    else
      var before := After(s, events[..|events| - 1]);
      match events[|events| - 1]
      case Persist(c) => Persisted(before, c)
      case Restart => Store(before.disk, None, 0)
  }

  ghost predicate AllReads(events: seq<Event>) {
    forall i :: 0 <= i < |events| && events[i].Persist? ==> events[i].call.readOk
  }

  /** The signature, when there is one, is the size of what is on disk. */
  predicate SigMatches(s: Store) {
    s.sig.Some? ==> s.sig.value == Sizes(s.disk)
  }

  lemma PersistKeeps(s: Store, c: Call)
    requires SigMatches(s) && c.readOk
    ensures SigMatches(Persisted(s, c)) && BooksWithin(s.disk, Persisted(s, c).disk)
  {
  }

  /** An entry on disk never changes and never goes, whatever the hot tier holds at each persist. */
  lemma {:induction false} EntriesAreStable(s: Store, events: seq<Event>)
    requires SigMatches(s) && AllReads(events)
    ensures SigMatches(After(s, events)) && BooksWithin(s.disk, After(s, events).disk)
  {
    if events != [] {
      var n := |events| - 1;
      EntriesAreStable(s, events[..n]);
      if events[n].Persist? {
        PersistKeeps(After(s, events[..n]), events[n].call);
      }
    }
  }

  lemma SameSizeSame(a: Map, b: Map)
    requires Within(a, b) && |a| == |b|
    ensures a == b
  {
    assert a.Keys <= b.Keys && |a.Keys| == |a| && |b.Keys| == |b|;
    SubsetSameSize(a.Keys, b.Keys);
  }

  lemma SubsetSameSize(a: set<Name>, b: set<Name>)
    requires a <= b && |a| == |b|
    ensures a == b
  {
    assert b == a + (b - a);
    assert |b| == |a| + |b - a|;
  }

  /** A write the signature skips would have added nothing; that the signature matches the disk is kept
      by `EntriesAreStable`. */
  lemma SkipAddsNothing(s: Store, c: Call)
    requires SigMatches(s) && c.readOk && Skips(s, c)
    ensures Merged(s.disk, LiveOf(c.hot)) == s.disk
  {
    var merged := Merged(s.disk, LiveOf(c.hot));
    SameSizeSame(s.disk.codes, merged.codes);
    SameSizeSame(s.disk.slots, merged.slots);
  }

  /** Writing `written` over `disk` loses nothing: an empty map is not written at all. */
  ghost predicate Spares(disk: Map, written: Map) {
    written == map[] || Within(disk, written)
  }

  ghost predicate SparesBooks(disk: Books, written: Books) {
    Spares(disk.codes, written.codes) && Spares(disk.slots, written.slots)
  }

  lemma UpsertKeepsIff(disk: Books, merged: Books)
    ensures BooksWithin(disk, Upserted(disk, merged)) <==> SparesBooks(disk, merged)
  {
  }

  /** A persist keeps everything on disk exactly when its read succeeds, it does not write, or each
      live map is empty or holds the disk's. */
  lemma PersistKeepsIff(s: Store, c: Call)
    ensures BooksWithin(s.disk, Persisted(s, c).disk)
       <==> c.readOk || Leaves(c) || Skips(s, c) || !c.writeOk || SparesBooks(s.disk, LiveOf(c.hot))
  {
    if !Leaves(c) && !Skips(s, c) && c.writeOk {
      UpsertKeepsIff(s.disk, Merged(Existing(s, c), LiveOf(c.hot)));
      if !c.readOk {
        assert LiveOf(c.hot).codes + map[] == LiveOf(c.hot).codes;
        assert LiveOf(c.hot).slots + map[] == LiveOf(c.hot).slots;
      }
    }
  }
}
