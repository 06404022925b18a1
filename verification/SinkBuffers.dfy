/** The two buffers rows pass on their way to the backend sink: one per table, one shared. */
module SinkBuffers {
  type TableID = nat

  // A table sink only has rows of its own table.
  datatype Row = Row(commitTs: nat, content: nat)

  /** A request to flush a table; `seen` counts the table's rows emitted before it. */
  datatype FlushMsg = FlushMsg(tableID: TableID, resolvedTs: nat, ghost seen: nat)

  const MAX_FLUSH_BATCH_SIZE := 512

  type Rows = map<TableID, seq<Row>>

  function Of(m: Rows, t: TableID): seq<Row> {
    if t in m then m[t] else []
  }

  predicate Sorted(rows: seq<Row>) {
    forall i, j :: 0 <= i < j < |rows| ==> rows[i].commitTs <= rows[j].commitTs
  }

  /** The `n` first rows, and no others, are at or below the timestamp. */
  predicate SplitAt(rows: seq<Row>, ts: nat, n: nat) {
    && n <= |rows|
    && (forall i :: 0 <= i < n ==> rows[i].commitTs <= ts)
    && (forall i :: n <= i < |rows| ==> rows[i].commitTs > ts)
  }

  /** Binary search for the first row above the timestamp. */
  method Search(rows: seq<Row>, ts: nat) returns (n: nat)
    requires Sorted(rows)
    ensures SplitAt(rows, ts, n)
  {
    var i, j := 0, |rows|;
    while i < j
      invariant 0 <= i <= j <= |rows|
      invariant forall k :: 0 <= k < i ==> rows[k].commitTs <= ts
      invariant forall k :: j <= k < |rows| ==> rows[k].commitTs > ts
    {
      var h := (i + j) / 2;
      if !(rows[h].commitTs > ts) {
        i := h + 1;
      } else {
        j := h;
      }
    }
    return i;
  }

  /** What the request asks for is among the first `n` rows emitted. */
  ghost predicate Within(emitted: seq<Row>, m: FlushMsg, n: nat) {
    && m.seen <= |emitted|
    && forall i :: 0 <= i < m.seen && emitted[i].commitTs <= m.resolvedTs ==> i < n
  }

  /** Where the rows of all tables are. */
  datatype Pipes = Pipes(emitted: Rows, backend: Rows, buffer: Rows, tableBuffer: Rows)

  /** Backend, shared buffer and table buffer hold the table's rows in turn. */
  predicate InTurn(p: Pipes, t: TableID) {
    Of(p.emitted, t) == Of(p.backend, t) + Of(p.buffer, t) + Of(p.tableBuffer, t)
  }

  predicate SortedOf(m: Rows, t: TableID) {
    Sorted(Of(m, t))
  }

  /** Every table emits in commit order. */
  ghost predicate AllSorted(m: Rows) {
    forall t {:trigger SortedOf(m, t)} :: SortedOf(m, t)
  }

  lemma EmitSorted(m: Rows, t: TableID, rows: seq<Row>)
    requires AllSorted(m) && Sorted(rows)
    ensures AllSorted(m[t := rows])
  {
    var m' := m[t := rows];
    forall u ensures SortedOf(m', u) { assert SortedOf(m, u); }
  }

  ghost predicate AllInTurn(p: Pipes) {
    forall t {:trigger InTurn(p, t)} :: InTurn(p, t)
  }

  /** Nothing the request covers is left in the table buffer. */
  ghost predicate Asked(p: Pipes, m: FlushMsg) {
    Within(Of(p.emitted, m.tableID), m, |Of(p.backend, m.tableID)| + |Of(p.buffer, m.tableID)|)
  }

  /** The backend has all rows the request covers. */
  ghost predicate Served(p: Pipes, m: FlushMsg) {
    Within(Of(p.emitted, m.tableID), m, |Of(p.backend, m.tableID)|)
  }

  ghost predicate Preserves(p: Pipes, p': Pipes) {
    && (forall m {:trigger Asked(p', m)} :: Asked(p, m) ==> Asked(p', m))
    && (forall m {:trigger Served(p', m)} :: Served(p, m) ==> Served(p', m))
  }

  lemma SortedPart(a: seq<Row>, b: seq<Row>, c: seq<Row>)
    requires Sorted(a + b + c)
    ensures Sorted(b) && Sorted(c)
  {
    var all := a + b + c;
    assert forall i :: 0 <= i < |b| ==> b[i] == all[|a| + i];
    assert forall i :: 0 <= i < |c| ==> c[i] == all[|a| + |b| + i];
  }

  lemma BuffersSorted(p: Pipes, t: TableID)
    requires AllInTurn(p) && AllSorted(p.emitted)
    ensures Sorted(Of(p.buffer, t)) && Sorted(Of(p.tableBuffer, t))
  {
    assert InTurn(p, t) && SortedOf(p.emitted, t);
    SortedPart(Of(p.backend, t), Of(p.buffer, t), Of(p.tableBuffer, t));
  }

  /** Rows come in at the end. */
  function Emitted(p: Pipes, t: TableID, rows: seq<Row>): Pipes {
    p.(emitted := p.emitted[t := Of(p.emitted, t) + rows],
       tableBuffer := p.tableBuffer[t := Of(p.tableBuffer, t) + rows])
  }

  /** Rows move on to the shared buffer. */
  function Passed(p: Pipes, t: TableID, n: nat): Pipes
    requires n <= |Of(p.tableBuffer, t)|
  {
    var rows := Of(p.tableBuffer, t);
    p.(tableBuffer := p.tableBuffer[t := rows[n..]], buffer := p.buffer[t := Of(p.buffer, t) + rows[..n]])
  }

  /** Rows move on to the backend. */
  function Delivered(p: Pipes, t: TableID, n: nat): Pipes
    requires n <= |Of(p.buffer, t)|
  {
    var rows := Of(p.buffer, t);
    p.(buffer := p.buffer[t := rows[n..]], backend := p.backend[t := Of(p.backend, t) + rows[..n]])
  }

  lemma EmitKeeps(p: Pipes, t: TableID, rows: seq<Row>)
    requires AllInTurn(p)
    ensures AllInTurn(Emitted(p, t, rows)) && Preserves(p, Emitted(p, t, rows))
  {
    var p' := Emitted(p, t, rows);
    forall u ensures InTurn(p', u) {
      assert InTurn(p, u);
      if u == t {
        assert Of(p'.emitted, t) == Of(p.backend, t) + Of(p.buffer, t) + (Of(p.tableBuffer, t) + rows);
      }
    }
    forall m ensures (Asked(p, m) ==> Asked(p', m)) && (Served(p, m) ==> Served(p', m)) {
      WithinGrows(Of(p.emitted, m.tableID), rows, m);
    }
  }

  lemma WithinGrows(emitted: seq<Row>, rows: seq<Row>, m: FlushMsg)
    ensures forall n :: Within(emitted, m, n) ==> Within(emitted + rows, m, n)
  {
  }

  lemma PassKeeps(p: Pipes, t: TableID, n: nat)
    requires AllInTurn(p) && n <= |Of(p.tableBuffer, t)|
    ensures AllInTurn(Passed(p, t, n)) && Preserves(p, Passed(p, t, n))
  {
    var p' := Passed(p, t, n);
    forall u ensures InTurn(p', u) { assert InTurn(p, u); }
  }

  lemma DeliverKeeps(p: Pipes, t: TableID, n: nat)
    requires AllInTurn(p) && n <= |Of(p.buffer, t)|
    ensures AllInTurn(Delivered(p, t, n)) && Preserves(p, Delivered(p, t, n))
  {
    var p' := Delivered(p, t, n);
    forall u ensures InTurn(p', u) { assert InTurn(p, u); }
  }

  /** With every row of the shared buffer that the request covers delivered, it is served. */
  lemma DeliverServes(p: Pipes, m: FlushMsg, n: nat)
    requires AllInTurn(p) && Asked(p, m) && SplitAt(Of(p.buffer, m.tableID), m.resolvedTs, n)
    ensures Served(Delivered(p, m.tableID, n), m)
  {
    var t, p' := m.tableID, Delivered(p, m.tableID, n);
    assert InTurn(p, t) && |Of(p'.backend, t)| == |Of(p.backend, t)| + n;
    forall i | 0 <= i < m.seen && Of(p.emitted, t)[i].commitTs <= m.resolvedTs ensures i < |Of(p'.backend, t)| {
      var k := i - |Of(p.backend, t)|;
      assert k >= 0 ==> Of(p.emitted, t)[i] == Of(p.buffer, t)[k];
    }
  }

  /** Some request for the table covers the row. */
  ghost predicate Covered(r: Row, t: TableID, flushed: seq<FlushMsg>, batch: seq<FlushMsg>) {
    exists m :: (m in flushed || m in batch) && m.tableID == t && r.commitTs <= m.resolvedTs
  }

  ghost predicate Requested(rows: seq<Row>, t: TableID, flushed: seq<FlushMsg>, batch: seq<FlushMsg>) {
    forall i :: 0 <= i < |rows| ==> Covered(rows[i], t, flushed, batch)
  }

  ghost predicate OnlyRequested(backend: Rows, flushed: seq<FlushMsg>, batch: seq<FlushMsg>) {
    forall t {:trigger Requested(Of(backend, t), t, flushed, batch)} :: Requested(Of(backend, t), t, flushed, batch)
  }

  lemma RequestedOn(p: Pipes, m: FlushMsg, n: nat, flushed: seq<FlushMsg>, batch: seq<FlushMsg>)
    requires OnlyRequested(p.backend, flushed, batch) && m in batch && SplitAt(Of(p.buffer, m.tableID), m.resolvedTs, n)
    ensures OnlyRequested(Delivered(p, m.tableID, n).backend, flushed, batch)
  {
    var backend := Delivered(p, m.tableID, n).backend;
    forall t ensures Requested(Of(backend, t), t, flushed, batch) {
      assert Requested(Of(p.backend, t), t, flushed, batch);
      forall i | 0 <= i < |Of(backend, t)| ensures Covered(Of(backend, t)[i], t, flushed, batch) {
        assert i < |Of(p.backend, t)| ==> Covered(Of(p.backend, t)[i], t, flushed, batch);
      }
    }
  }

  lemma MoreRequested(backend: Rows, flushed: seq<FlushMsg>, batch: seq<FlushMsg>, flushed': seq<FlushMsg>,
                      batch': seq<FlushMsg>)
    requires OnlyRequested(backend, flushed, batch)
    requires forall m :: m in flushed || m in batch ==> m in flushed' || m in batch'
    ensures OnlyRequested(backend, flushed', batch')
  {
    forall t ensures Requested(Of(backend, t), t, flushed', batch') {
      assert Requested(Of(backend, t), t, flushed, batch);
      var rows := Of(backend, t);
      forall i | 0 <= i < |rows| ensures Covered(rows[i], t, flushed', batch') {
        var r := rows[i];
        assert Covered(r, t, flushed, batch);
        var m :| (m in flushed || m in batch) && m.tableID == t && r.commitTs <= m.resolvedTs;
        assert m in flushed' || m in batch';
      }
    }
  }

  /** How many of the requests in line are taken at once. */
  function BatchOf(n: nat): (k: nat)
    ensures k <= n && k <= MAX_FLUSH_BATCH_SIZE && (k == n || k == MAX_FLUSH_BATCH_SIZE)
  {
    if n < MAX_FLUSH_BATCH_SIZE then n else MAX_FLUSH_BATCH_SIZE
  }

  class SinkManager {
    var tableBuffer: Rows
    var buffer: Rows
    var flushTsChan: seq<FlushMsg>
    var batch: seq<FlushMsg>

    // What the backend sink was given, and what it was told to flush.
    var backend: Rows
    var flushed: seq<FlushMsg>

    // All rows each table has emitted; whether the rows for the batch went to the backend.
    ghost var emitted: Rows
    ghost var delivered: bool

    ghost function Abs(): Pipes
      reads this
    {
      Pipes(emitted, backend, buffer, tableBuffer)
    }

    /** Rows are where they should be; every request in line leaves nothing behind in the table
        buffer; every flush told to the backend came after all the rows it covers; and the backend
        has no row that no request covers. */
    ghost predicate Valid()
      reads this
    {
      && AllInTurn(Abs()) && AllSorted(emitted)
      && (forall m :: m in flushTsChan ==> Asked(Abs(), m))
      && (forall m :: m in batch ==> if delivered then Served(Abs(), m) else Asked(Abs(), m))
      && (forall m :: m in flushed ==> Served(Abs(), m))
      && OnlyRequested(backend, flushed, batch)
    }

    constructor ()
      ensures Valid() && emitted == map[]
    {
      tableBuffer, buffer, backend, emitted := map[], map[], map[], map[];
      flushTsChan, batch, flushed, delivered := [], [], [], false;
    }

    // ----- Table sink -----

    /** A table emits rows of its own, in commit order. */
    method EmitRowChangedEvents(t: TableID, rows: seq<Row>)
      requires Valid() && Sorted(Of(emitted, t) + rows)
      modifies this`tableBuffer, this`emitted
      ensures Valid() && emitted == old(emitted)[t := Of(old(emitted), t) + rows]
    {
      ghost var p := Abs();
      tableBuffer := tableBuffer[t := Of(tableBuffer, t) + rows];
      emitted := emitted[t := Of(emitted, t) + rows];
      EmitKeeps(p, t, rows);
      EmitSorted(p.emitted, t, Of(p.emitted, t) + rows);
    }

    /** Moves the rows at or below the timestamp to the shared buffer. */
    method PassRows(t: TableID, resolvedTs: nat) returns (ghost n: nat)
      requires Valid()
      modifies this`tableBuffer, this`buffer
      ensures Valid() && SplitAt(Of(old(tableBuffer), t), resolvedTs, n)
      ensures Abs() == if n == 0 then old(Abs()) else Passed(old(Abs()), t, n)
    {
      var rows := Of(tableBuffer, t);
      BuffersSorted(Abs(), t);
      var i := Search(rows, resolvedTs);
      n := i;
      if i == 0 {
        return;
      }
      ghost var p := Abs();
      tableBuffer := tableBuffer[t := rows[i..]];
      buffer := buffer[t := Of(buffer, t) + rows[..i]];
      PassKeeps(p, t, i);
    }

    method RequestFlush(t: TableID, resolvedTs: nat)
      requires Valid()
      requires forall i :: 0 <= i < |Of(tableBuffer, t)| ==> Of(tableBuffer, t)[i].commitTs > resolvedTs
      modifies this`flushTsChan
      ensures Valid() && flushTsChan == old(flushTsChan) + [FlushMsg(t, resolvedTs, |Of(emitted, t)|)]
    {
      assert InTurn(Abs(), t);
      flushTsChan := flushTsChan + [FlushMsg(t, resolvedTs, |Of(emitted, t)|)];
    }

    /** A redo log that lags behind lowers the timestamp. */
    method FlushRowChangedEvents(t: TableID, resolvedTs: nat, redoTs: nat) returns (ghost n: nat)
      requires Valid()
      modifies this`tableBuffer, this`buffer, this`flushTsChan
      ensures Valid() && SplitAt(Of(old(tableBuffer), t), resolvedTs, n)
      ensures Abs() == if n == 0 then old(Abs()) else Passed(old(Abs()), t, n)
      ensures flushTsChan == old(flushTsChan)
              + [FlushMsg(t, if redoTs < resolvedTs then redoTs else resolvedTs, |Of(emitted, t)|)]
    {
      n := PassRows(t, resolvedTs);
      RequestFlush(t, if redoTs < resolvedTs then redoTs else resolvedTs);
    }

    // ----- Buffer sink: one round, in the steps other goroutines may come between -----

    /** Takes as many requests as are there and fit. */
    method ReceiveBatch()
      requires Valid() && flushTsChan != [] && batch == []
      modifies this`flushTsChan, this`batch, this`delivered
      ensures Valid() && !delivered && batch + flushTsChan == old(flushTsChan)
      ensures |batch| == BatchOf(|old(flushTsChan)|)
    {
      batch, flushTsChan := [flushTsChan[0]], flushTsChan[1..];
      while |batch| < MAX_FLUSH_BATCH_SIZE && flushTsChan != []
        invariant batch + flushTsChan == old(flushTsChan) && 0 < |batch| <= MAX_FLUSH_BATCH_SIZE
        decreases |flushTsChan|
      {
        batch, flushTsChan := batch + [flushTsChan[0]], flushTsChan[1..];
      }
      delivered := false;
      assert forall m :: m in batch + flushTsChan ==> m in old(flushTsChan);
      MoreRequested(backend, flushed, old(batch), flushed, batch);
    }

    /** Gives the backend the rows that one request covers. */
    method EmitFor(m: FlushMsg) returns (ghost n: nat)
      requires Valid() && Asked(Abs(), m) && m in batch
      modifies this`buffer, this`backend
      ensures Valid() && Served(Abs(), m)
      ensures SplitAt(Of(old(buffer), m.tableID), m.resolvedTs, n) && Abs() == Delivered(old(Abs()), m.tableID, n)
      ensures Preserves(old(Abs()), Abs())
    {
      var t := m.tableID;
      var rows := Of(buffer, t);
      BuffersSorted(Abs(), t);
      var i := Search(rows, m.resolvedTs);
      ghost var p := Abs();
      DeliverKeeps(p, t, i);
      DeliverServes(p, m, i);
      backend := backend[t := Of(backend, t) + rows[..i]];
      buffer := buffer[t := rows[i..]];
      assert Abs() == Delivered(p, t, i);
      RequestedOn(p, m, i, flushed, batch);
      n := i;
    }

    method EmitBatch()
      requires Valid() && !delivered
      modifies this`buffer, this`backend, this`delivered
      ensures Valid() && delivered
    {
      var i := 0;
      while i < |batch|
        invariant 0 <= i <= |batch| && Valid() && !delivered
        invariant forall k :: 0 <= k < i ==> Served(Abs(), batch[k])
      {
        var _ := EmitFor(batch[i]);
        i := i + 1;
      }
      delivered := true;
    }

    /** Tells the backend to flush; by now it has all the rows asked for. */
    method FlushBatch()
      requires Valid() && delivered
      modifies this`batch, this`flushed
      ensures Valid() && batch == [] && flushed == old(flushed) + old(batch)
    {
      var i := 0;
      while i < |batch|
        invariant 0 <= i <= |batch| && batch == old(batch)
        invariant flushed == old(flushed) + batch[..i]
      {
        flushed := flushed + [batch[i]];
        i := i + 1;
      }
      MoreRequested(backend, old(flushed), batch, flushed, []);
      batch := [];
    }

    method RunOnce()
      requires Valid() && flushTsChan != [] && batch == []
      modifies this`flushTsChan, this`batch, this`buffer, this`backend, this`flushed, this`delivered
      ensures Valid() && batch == []
      ensures var n := BatchOf(|old(flushTsChan)|);
              flushTsChan == old(flushTsChan)[n..] && flushed == old(flushed) + old(flushTsChan)[..n]
    {
      ReceiveBatch();
      ghost var n := |batch|;
      EmitBatch();
      FlushBatch();
      assert flushTsChan == old(flushTsChan)[n..] && flushed == old(flushed) + old(flushTsChan)[..n];
    }
  }
}
