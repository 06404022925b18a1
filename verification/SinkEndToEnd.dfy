/** The MySQL sink from the tables' transactions to the statements executed downstream. */
module SinkEndToEnd {
  import opened SinkTypes
  import opened SinkStatements
  import opened SinkBatches
  import opened SinkMeaning
  import C = SinkConcurrency
  import M = MysqlSink
  import Merge = TxnMerge

  /** What the statements of one row do. */
  function RowEffect<DB>(exec: (DB, Dml) -> DB, o: Options): (DB, Row) -> DB {
    (db: DB, r: Row) => if RowOk(r, o) then RunDmls(exec, db, DmlsOf(r, o)) else db
  }

  /** What the statements of all rows of the transactions do, one row after the other. */
  function InOrder<DB>(exec: (DB, Dml) -> DB, o: Options, db: DB, jobs: seq<C.Job>): DB
    requires RowsOk(C.RowsOf(jobs), o)
  {
    RunDmls(exec, db, Unbatched(C.RowsOf(jobs), o))
  }

  // ----- Steps that execute prepared statements -----

  /** The rows that the worker has executed downstream in the step. */
  function RowsExecuted<DB>(s: C.Sink<DB>, e: C.Event, maxTxnRow: nat): seq<Row>
    requires C.Enabled(s, e)
  {
    match e
    case Receive(i) => C.RowsOf(C.Executes(s.workers[i], maxTxnRow))
    case Notified(i) => C.RowsOf(s.workers[i].buffer)
    case _ => []
  }

  /** As in the state machine, but what happens downstream is the execution of statements that
      `PrepareDMLs` may give for the rows. */
  ghost predicate Moves<DB>(exec: (DB, Dml) -> DB, o: Options, s: C.Sink<DB>, e: C.Event, s': C.Sink<DB>,
                            maxTxnRow: nat) {
    && C.ShapeOk(s) && C.Enabled(s, e)
    && s' == C.Step(RowEffect(exec, o), s, e, maxTxnRow).(db := s'.db)
    && exists sqls, plans ::
         Prepared(sqls, plans, RowsExecuted(s, e, maxTxnRow), o) && s'.db == RunDmls(exec, s.db, ExpandAll(plans))
  }

  ghost predicate IsRun<DB>(exec: (DB, Dml) -> DB, o: Options, states: seq<C.Sink<DB>>, events: seq<C.Event>,
                            maxTxnRow: nat) {
    && |states| == |events| + 1
    && forall i {:trigger events[i]} :: 0 <= i < |events| ==>
         Moves(exec, o, states[i], events[i], states[i + 1], maxTxnRow)
  }

  // ----- What is executed is part of what was dispatched -----

  lemma {:induction false} RowsWithin(jobs: seq<C.Job>, j: C.Job)
    requires j in jobs
    ensures forall r :: r in j.rows ==> r in C.RowsOf(jobs)
  {
    if jobs[0] != j {
      RowsWithin(jobs[1..], j);
    }
  }

  lemma {:induction false} RowsAmong(jobs: seq<C.Job>, order: seq<C.Job>)
    requires forall j :: j in jobs ==> j in order
    ensures forall r :: r in C.RowsOf(jobs) ==> r in C.RowsOf(order)
  {
    if jobs != [] {
      RowsWithin(order, jobs[0]);
      RowsAmong(jobs[1..], order);
    }
  }

  lemma {:induction false} DmlsWithin(rows: seq<Row>, o: Options, r: Row)
    requires RowsOk(rows, o) && r in rows
    ensures RowOk(r, o) && forall d :: d in DmlsOf(r, o) ==> d in Unbatched(rows, o)
  {
    if rows[0] != r {
      DmlsWithin(rows[1..], o, r);
    }
  }

  lemma {:induction false} DmlsAmong(rows: seq<Row>, all: seq<Row>, o: Options)
    requires RowsOk(all, o) && forall r :: r in rows ==> r in all
    ensures RowsOk(rows, o) && forall d :: d in Unbatched(rows, o) ==> d in Unbatched(all, o)
  {
    if rows != [] {
      DmlsWithin(all, o, rows[0]);
      DmlsAmong(rows[1..], all, o);
    }
  }

  lemma BufferAmong<DB>(apply: (DB, Row) -> DB, db0: DB, order: seq<C.Job>, s: C.Sink<DB>, left: seq<C.Assigned>,
                        i: nat)
    requires C.Inv(apply, db0, order, s, left) && i < |s.workers|
    ensures forall r :: r in C.RowsOf(s.workers[i].buffer) ==> r in C.RowsOf(order)
  {
    assert C.Served(s.workers, s.phase, left, i);
    forall j | j in s.workers[i].buffer ensures j in order {
      assert j in C.Pending(s.workers[i]);
      C.MineIsLeft(left, i, j);
    }
    RowsAmong(s.workers[i].buffer, order);
  }

  lemma ExecutedAmong<DB>(apply: (DB, Row) -> DB, db0: DB, order: seq<C.Job>, s: C.Sink<DB>, left: seq<C.Assigned>,
                          e: C.Event, maxTxnRow: nat)
    requires C.Inv(apply, db0, order, s, left) && C.Enabled(s, e)
    ensures forall r :: r in RowsExecuted(s, e, maxTxnRow) ==> r in C.RowsOf(order)
  {
    if e.Receive? || e.Notified? {
      BufferAmong(apply, db0, order, s, left, e.worker);
    }
  }

  /** The statements do what the rows do. */
  lemma MovesAreSteps<DB(!new)>(exec: (DB, Dml) -> DB, o: Options, db0: DB, order: seq<C.Job>, s: C.Sink<DB>,
                                left: seq<C.Assigned>, e: C.Event, s': C.Sink<DB>, maxTxnRow: nat)
    requires RowsOk(C.RowsOf(order), o) && InsertsCommute(exec, Unbatched(C.RowsOf(order), o))
    requires C.Inv(RowEffect(exec, o), db0, order, s, left) && Moves(exec, o, s, e, s', maxTxnRow)
    ensures C.Moves(RowEffect(exec, o), s, e, s', maxTxnRow)
  {
    var apply, rows := RowEffect(exec, o), RowsExecuted(s, e, maxTxnRow);
    var sqls, plans :| Prepared(sqls, plans, rows, o) && s'.db == RunDmls(exec, s.db, ExpandAll(plans));
    ExecutedAmong(apply, db0, order, s, left, e, maxTxnRow);
    DmlsAmong(rows, C.RowsOf(order), o);
    PreparedRunsRows(apply, exec, s.db, rows, o, plans);
    DownstreamIsRows(apply, s, e, maxTxnRow);
  }

  lemma DownstreamIsRows<DB>(apply: (DB, Row) -> DB, s: C.Sink<DB>, e: C.Event, maxTxnRow: nat)
    requires C.ShapeOk(s) && C.Enabled(s, e)
    ensures C.Step(apply, s, e, maxTxnRow).db == C.RunRows(apply, s.db, RowsExecuted(s, e, maxTxnRow))
  {
  }

  // ----- Runs -----

  lemma {:induction false} RunIsRun<DB(!new)>(exec: (DB, Dml) -> DB, o: Options, db0: DB, order: seq<C.Job>,
                                              states: seq<C.Sink<DB>>, events: seq<C.Event>, maxTxnRow: nat, k: nat)
    requires RowsOk(C.RowsOf(order), o) && InsertsCommute(exec, Unbatched(C.RowsOf(order), o))
    requires C.KeysDecide(RowEffect(exec, o), order) && IsRun(exec, o, states, events, maxTxnRow) && k <= |events|
    requires |states[0].workers| > 0 && states[0] == C.Start(db0, order, |states[0].workers|)
    ensures C.IsRun(RowEffect(exec, o), states[..k + 1], events[..k], maxTxnRow)
  {
    if k > 0 {
      var apply, i := RowEffect(exec, o), k - 1;
      RunIsRun(exec, o, db0, order, states, events, maxTxnRow, i);
      var left := C.RunKeepsInv(apply, db0, order, states[..k], events[..i], maxTxnRow, i);
      assert Moves(exec, o, states[i], events[i], states[i + 1], maxTxnRow);
      MovesAreSteps(exec, o, db0, order, states[i], left, events[i], states[i + 1], maxTxnRow);
      RunOneMore(apply, states, events, maxTxnRow, i);
    }
  }

  lemma RunOneMore<DB>(apply: (DB, Row) -> DB, states: seq<C.Sink<DB>>, events: seq<C.Event>, maxTxnRow: nat, i: nat)
    requires |states| == |events| + 1 && i < |events| && C.IsRun(apply, states[..i + 1], events[..i], maxTxnRow)
    requires C.Moves(apply, states[i], events[i], states[i + 1], maxTxnRow)
    ensures C.IsRun(apply, states[..i + 2], events[..i + 1], maxTxnRow)
  {
    var states', events' := states[..i + 2], events[..i + 1];
    forall j | 0 <= j < |events'| ensures C.Moves(apply, states'[j], events'[j], states'[j + 1], maxTxnRow) {
      if j < i {
        assert events[..i][j] == events[j] && states[..i + 1][j + 1] == states[j + 1];
      }
    }
  }

  lemma SerialIsInOrder<DB(!new)>(exec: (DB, Dml) -> DB, o: Options, db: DB, jobs: seq<C.Job>)
    requires RowsOk(C.RowsOf(jobs), o)
    ensures C.Serial(RowEffect(exec, o), db, jobs) == InOrder(exec, o, db, jobs)
  {
    C.BatchIsSerial(RowEffect(exec, o), db, jobs);
    UnbatchedRunsRows(RowEffect(exec, o), exec, db, C.RowsOf(jobs), o);
  }

  /** However dispatcher and workers are interleaved, however rows are gathered into batches and
      batches into statements, in the end the statements executed downstream have had the effect
      of the statements of the rows, one by one in the order of the transactions. */
  lemma StatementsAreSerial<DB(!new)>(exec: (DB, Dml) -> DB, o: Options, db0: DB, order: seq<C.Job>,
                                      states: seq<C.Sink<DB>>, events: seq<C.Event>, maxTxnRow: nat)
    requires RowsOk(C.RowsOf(order), o) && InsertsCommute(exec, Unbatched(C.RowsOf(order), o))
    requires C.KeysDecide(RowEffect(exec, o), order) && IsRun(exec, o, states, events, maxTxnRow)
    requires |states[0].workers| > 0 && states[0] == C.Start(db0, order, |states[0].workers|)
    ensures var s := states[|events|];
            if s.phase.Stopped? then s.db == InOrder(exec, o, db0, order) else C.CanGoOn(s)
  {
    RunIsRun(exec, o, db0, order, states, events, maxTxnRow, |events|);
    assert states[..|events| + 1] == states && events[..|events|] == events;
    C.ParallelIsSerial(RowEffect(exec, o), db0, order, states, events, maxTxnRow);
    SerialIsInOrder(exec, o, db0, order);
  }

  /** So the dispatching loop over the tables' transactions has the effect of their statements. */
  method ExecTxns<DB(!new)>(groups: seq<seq<Txn>>, nWorkers: nat, ghost exec: (DB, Dml) -> DB, o: Options,
                            ghost maxTxnRow: nat, ghost db: DB)
    returns (order: seq<Txn>, ghost tags: seq<nat>, ghost after: DB)
    requires nWorkers > 0
    requires forall g, i :: 0 <= g < |groups| && 0 <= i < |groups[g]| ==> WellFormedTxn(groups[g][i])
    requires M.GroupsDecide(RowEffect(exec, o), groups)
    ensures Merge.Merges(order, tags, groups) && (Merge.AllSorted(groups) ==> Merge.Sorted(order))
    ensures forall k :: 0 <= k < |order| ==> WellFormedTxn(order[k])
    ensures RowsOk(C.RowsOf(C.Jobs(order)), o) ==> after == InOrder(exec, o, db, C.Jobs(order))
  {
    order, tags, after := M.DispatchAndExecTxns(groups, nWorkers, RowEffect(exec, o), maxTxnRow, db);
    if RowsOk(C.RowsOf(C.Jobs(order)), o) {
      SerialIsInOrder(exec, o, db, C.Jobs(order));
    }
  }
}
