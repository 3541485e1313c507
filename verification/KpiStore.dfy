/** The buffered KPI store: per-run pending lists in front of upserting tables, one file per run. */
module KpiStore {
  import opened Options

  type RunId = nat
  type Metric = nat
  type Clock = int
  type Path = nat

  datatype Key = Key(run: RunId, metric: Metric, clock: Clock)

  datatype Row = Row(key: Key, value: real)

  type Table = map<Key, real>

  /** Last write wins: the value of the last row for `k`. */
  function Latest(rows: seq<Row>, k: Key): Option<real> {
    if rows == [] then None
    else if rows[|rows| - 1].key == k then Some(rows[|rows| - 1].value)
    else Latest(rows[..|rows| - 1], k)
  }

  function Stored(t: Table, k: Key): Option<real> {
    if k in t then Some(t[k]) else None
  }

  /** `xs` where it says something, `before` otherwise. */
  function Over(xs: Option<real>, before: Option<real>): Option<real> {
    if xs.Some? then xs else before
  }

  lemma {:induction false} LatestConcat(xs: seq<Row>, ys: seq<Row>, k: Key)
    ensures Latest(xs + ys, k) == Over(Latest(ys, k), Latest(xs, k))
  {
    if ys == [] {
      assert xs + ys == xs;
    } else {
      assert (xs + ys)[..|xs + ys| - 1] == xs + ys[..|ys| - 1];
      LatestConcat(xs, ys[..|ys| - 1], k);
    }
  }

  // ---------------------------------------------------------------- the order of a read

  /** `ORDER BY sim_clock, metric`. */
  predicate Before(a: Key, b: Key) {
    a.clock < b.clock || (a.clock == b.clock && a.metric < b.metric)
  }

  predicate InOrder(rows: seq<Row>) {
    forall i, j :: 0 <= i < j < |rows| ==> Before(rows[i].key, rows[j].key)
  }

  predicate First(keys: set<Key>, k: Key) {
    k in keys && forall j :: j in keys && j != k ==> Before(k, j)
  }

  lemma {:induction false} FirstExists(keys: set<Key>, run: RunId)
    requires keys != {} && forall k :: k in keys ==> k.run == run
    ensures exists k :: First(keys, k)
    decreases |keys|
  {
    var k :| k in keys;
    if !First(keys, k) {
      FirstExists(keys - {k}, run);
      var f :| First(keys - {k}, f);
      var j :| j in keys && j != k && !Before(k, j);
      assert j in keys - {k} && Before(j, k) && (f == j || Before(f, j));
      assert First(keys, f);
    }
  }

  /** The rows of one run in a table, as a query returns them. */
  method SelectInOrder(table: Table, run: RunId) returns (rows: seq<Row>)
    ensures InOrder(rows)
    ensures forall k: Key, v :: Row(k, v) in rows <==> k.run == run && Stored(table, k) == Some(v)
  {
    var todo := set k | k in table && k.run == run;
    rows := [];
    while todo != {}
      invariant forall k :: k in todo ==> k in table && k.run == run
      invariant forall i, k :: 0 <= i < |rows| && k in todo ==> Before(rows[i].key, k)
      invariant InOrder(rows)
      invariant forall r :: r in rows ==> r.key in table && r.key.run == run && table[r.key] == r.value
      invariant forall k :: k in table && k.run == run && k !in todo ==> Row(k, table[k]) in rows
      decreases |todo|
    {
      FirstExists(todo, run);
      var k :| k in todo && forall j :: j in todo && j != k ==> Before(k, j);
      rows := rows + [Row(k, table[k])];
      todo := todo - {k};
    }
  }

  function Pending(m: map<RunId, seq<Row>>, run: RunId): seq<Row> {
    if run in m then m[run] else []
  }

  function File(db: map<Path, Table>, p: Path): Table {
    if p in db then db[p] else map[]
  }

  class DuckDbKpiStore {
    /** Which file a run is kept in; two runs may share one. */
    const pathOf: RunId -> Path
    const batchMax: nat
    var pending: map<RunId, seq<Row>>
    var db: map<Path, Table>
    /** Everything enqueued, in order. */
    ghost var log: seq<Row>

    /** What the store holds for a key: the pending rows over the table. */
    ghost function Held(k: Key): Option<real>
      reads `pending, `db
    {
      Over(Latest(Pending(pending, k.run), k), Stored(File(db, pathOf(k.run)), k))
    }

    ghost predicate Consistent()
      reads `pending, `db, `log
    {
      && (forall r, i :: r in pending && 0 <= i < |pending[r]| ==> pending[r][i].key.run == r)
      && (forall k :: Held(k) == Latest(log, k))
    }

    ghost predicate Valid()
      reads this
    {
      batchMax >= 1 && Consistent() && forall r :: r in pending ==> |pending[r]| < batchMax
    }

    constructor (batchMaxRows: int, pathOf: RunId -> Path)
      ensures Valid() && log == [] && batchMax == (if batchMaxRows < 1 then 1 else batchMaxRows)
      ensures this.pathOf == pathOf
    {
      this.pathOf := pathOf;
      batchMax := if batchMaxRows < 1 then 1 else batchMaxRows;
      pending, db, log := map[], map[], [];
    }

    /** The upserts of one batch, row by row. */
    method WriteRows(run: RunId, rows: seq<Row>)
      modifies `db
      ensures forall p :: p != pathOf(run) ==> File(db, p) == File(old(db), p)
      ensures forall k :: Stored(File(db, pathOf(run)), k)
                       == Over(Latest(rows, k), Stored(File(old(db), pathOf(run)), k))
    {
      var table := File(db, pathOf(run));
      var i := 0;
      while i < |rows|
        invariant 0 <= i <= |rows|
        invariant forall k :: Stored(table, k) == Over(Latest(rows[..i], k), Stored(File(old(db), pathOf(run)), k))
      {
        assert rows[..i + 1][..i] == rows[..i];
        table := table[rows[i].key := rows[i].value];
        i := i + 1;
      }
      assert rows[..i] == rows;
      db := db[pathOf(run) := table];
    }

    method FlushRun(run: RunId) returns (written: nat)
      requires Consistent()
      modifies `pending, `db
      ensures Consistent() && pending == old(pending) - {run} && written == |Pending(old(pending), run)|
    {
      var rows := Pending(pending, run);
      pending := pending - {run};
      written := |rows|;
      if rows != [] {
        OnlyOf(rows, run);
        WriteRows(run, rows);
      }
      HeldAfterFlush(old(pending), pending, old(db), db, run);
    }

    lemma HeldAfterFlush(before: map<RunId, seq<Row>>, after: map<RunId, seq<Row>>, db0: map<Path, Table>,
                         db1: map<Path, Table>, run: RunId)
      requires after == before - {run}
      requires forall r, i :: r in before && 0 <= i < |before[r]| ==> before[r][i].key.run == r
      requires forall p :: p != pathOf(run) ==> File(db1, p) == File(db0, p)
      requires forall k :: Stored(File(db1, pathOf(run)), k)
                        == Over(Latest(Pending(before, run), k), Stored(File(db0, pathOf(run)), k))
      ensures forall k: Key :: Over(Latest(Pending(after, k.run), k), Stored(File(db1, pathOf(k.run)), k))
                       == Over(Latest(Pending(before, k.run), k), Stored(File(db0, pathOf(k.run)), k))
    {
      forall k: Key
        ensures Over(Latest(Pending(after, k.run), k), Stored(File(db1, pathOf(k.run)), k))
             == Over(Latest(Pending(before, k.run), k), Stored(File(db0, pathOf(k.run)), k))
      {
        if k.run != run {
          OnlyOf(Pending(before, run), run);
          assert Latest(Pending(before, run), k) == None;
        }
      }
    }

    /** One run's rows, or all of them. */
    method Flush(run: Option<RunId>) returns (written: nat)
      requires Consistent()
      modifies `pending, `db
      ensures Consistent()
      ensures pending == if run.Some? then old(pending) - {run.value} else map[]
      ensures run.Some? ==> written == |Pending(old(pending), run.value)|
    {
      if run.Some? {
        written := FlushRun(run.value);
      } else {
        written := 0;
        var todo := pending.Keys;
        while todo != {}
          invariant Consistent() && pending.Keys == todo
          decreases todo
        {
          var r :| r in todo;
          var n := FlushRun(r);
          written := written + n;
          todo := todo - {r};
        }
        assert pending == map[];
      }
    }

    method Enqueue(run: RunId, metric: Metric, value: real, clock: Clock) returns (flushed: bool)
      requires Valid()
      modifies `pending, `db, `log
      ensures Valid() && log == old(log) + [Row(Key(run, metric, clock), value)]
      ensures flushed <==> |Pending(old(pending), run)| + 1 == batchMax
    {
      var row := Row(Key(run, metric, clock), value);
      Append(row);
      flushed := |pending[run]| >= batchMax;
      if flushed {
        var _ := Flush(Some(run));
      }
    }

    method Append(row: Row)
      requires Consistent()
      modifies `pending, `log
      ensures Consistent() && log == old(log) + [row]
      ensures pending == old(pending)[row.key.run := Pending(old(pending), row.key.run) + [row]]
    {
      var rows := Pending(pending, row.key.run);
      assert (rows + [row])[..|rows|] == rows;
      assert (log + [row])[..|log|] == log;
      pending := pending[row.key.run := rows + [row]];
      log := log + [row];
    }

    /** The run's rows in the order of their clocks and metrics: the last value enqueued for each key,
        wherever the flushes fell. */
    method FetchAll(run: RunId) returns (rows: seq<Row>)
      requires Valid()
      modifies `pending, `db
      ensures Valid() && InOrder(rows)
      ensures forall k: Key, v :: Row(k, v) in rows <==> k.run == run && Latest(log, k) == Some(v)
    {
      var _ := Flush(Some(run));
      var table := File(db, pathOf(run));
      rows := SelectInOrder(table, run);
      forall k: Key | k.run == run
        ensures Latest(log, k) == Stored(table, k)
      {
        assert Held(k) == Latest(log, k);
      }
    }
  }

  lemma {:induction false} OnlyOf(rows: seq<Row>, run: RunId)
    requires forall i :: 0 <= i < |rows| ==> rows[i].key.run == run
    ensures forall k: Key :: k.run != run ==> Latest(rows, k) == None
  {
    if rows != [] {
      OnlyOf(rows[..|rows| - 1], run);
    }
  }

  // ---------------------------------------------------------------- redelivery

  /** One stretch of the input between two crashes: the records from `lo` up to `hi`. */
  datatype Span = Span(lo: nat, hi: nat)

  /** At-least-once delivery: it starts at the beginning, and after a crash goes on from a record at
      or before the one it had reached. */
  ghost predicate AtLeastOnce(spans: seq<Span>, size: nat) {
    forall n :: 0 <= n < |spans| ==>
      && spans[n].lo <= spans[n].hi <= size
      && spans[n].lo <= Reached(spans[..n])
  }

  function Reached(spans: seq<Span>): nat {
    if spans == [] then 0 else spans[|spans| - 1].hi
  }

  function Delivered(input: seq<Row>, spans: seq<Span>): seq<Row>
    requires forall n :: 0 <= n < |spans| ==> spans[n].lo <= spans[n].hi <= |input|
  {
    if spans == [] then []
    else
      var n := |spans| - 1;
      Delivered(input, spans[..n]) + input[spans[n].lo..spans[n].hi]
  }

  lemma {:induction false} KeysBehindAreFinal(input: seq<Row>, spans: seq<Span>, k: Key)
    requires AtLeastOnce(spans, |input|) && Latest(input[Reached(spans)..], k).None?
    ensures Latest(Delivered(input, spans), k) == Latest(input, k)
  {
    if spans == [] {
      assert input[0..] == input;
    } else {
      var n := |spans| - 1;
      var span := input[spans[n].lo..spans[n].hi];
      AtLeastOncePrefix(spans, |input|);
      OneSpan(input, spans[n].lo, spans[n].hi, Reached(spans[..n]), k);
      LatestConcat(Delivered(input, spans[..n]), span, k);
      if Latest(span, k).None? {
        KeysBehindAreFinal(input, spans[..n], k);
      }
    }
  }

  lemma AtLeastOncePrefix(spans: seq<Span>, size: nat)
    requires AtLeastOnce(spans, size) && spans != []
    ensures AtLeastOnce(spans[..|spans| - 1], size)
  {
    var before := spans[..|spans| - 1];
    forall i | 0 <= i < |before|
      ensures before[i].lo <= before[i].hi <= size && before[i].lo <= Reached(before[..i])
    {
      assert spans[..i] == before[..i];
    }
  }

  /** If a key's last row lies before `hi`, a span that ends there has it, or it lies before the span
      and before anything reached earlier. */
  lemma OneSpan(input: seq<Row>, lo: nat, hi: nat, reached: nat, k: Key)
    requires lo <= hi <= |input| && lo <= reached <= |input| && Latest(input[hi..], k).None?
    ensures Latest(input[lo..hi], k).Some? ==> Latest(input, k) == Latest(input[lo..hi], k)
    ensures Latest(input[lo..hi], k).None? ==> Latest(input[reached..], k).None?
  {
    assert input[lo..] == input[lo..hi] + input[hi..];
    LatestConcat(input[lo..hi], input[hi..], k);
    assert input == input[..lo] + input[lo..];
    LatestConcat(input[..lo], input[lo..], k);
    assert input[lo..] == input[lo..reached] + input[reached..];
    LatestConcat(input[lo..reached], input[reached..], k);
  }

  /** However often records are delivered again, once everything has been delivered the store holds
      what a single delivery would have left. */
  lemma RedeliveryIsInvisible(input: seq<Row>, spans: seq<Span>, k: Key)
    requires AtLeastOnce(spans, |input|) && Reached(spans) == |input|
    ensures Latest(Delivered(input, spans), k) == Latest(input, k)
  {
    assert input[|input|..] == [];
    KeysBehindAreFinal(input, spans, k);
  }

  /** Enqueueing any suffix of the input once more changes nothing. */
  lemma SuffixAgain(input: seq<Row>, from: nat, k: Key)
    requires from <= |input|
    ensures Latest(input + input[from..], k) == Latest(input, k)
  {
    assert input == input[..from] + input[from..];
    LatestConcat(input[..from], input[from..], k);
    LatestConcat(input, input[from..], k);
  }

  /** Enqueueing a stretch that is not a suffix can bring an old value back. */
  lemma StretchAgainCanUndo()
    ensures exists input: seq<Row>, lo: nat, hi: nat, k ::
              lo <= hi <= |input| && Latest(input + input[lo..hi], k) != Latest(input, k)
  {
    var k := Key(0, 0, 0);
    var input := [Row(k, 1.0), Row(k, 2.0)];
    var again := input + input[0..1];
    assert again == [Row(k, 1.0), Row(k, 2.0), Row(k, 1.0)];
    assert Latest(input + input[0..1], k) == Some(1.0) && Latest(input, k) == Some(2.0);
  }
}
