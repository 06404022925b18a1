/** The causality map, the workers and the dispatching loop as the objects whose
    fields they update, each proved to follow the state machine of `SinkConcurrency`. */
module MysqlSink {
  import opened SinkTypes
  import opened SinkConcurrency
  import Keys = CausalityKeys
  import Merge = TxnMerge

  class Causality {
    var relations: Relations

    constructor ()
      ensures relations == map[]
    {
      relations := map[];
    }

    method Add(keys: set<Bytes>, idx: nat)
      modifies this
      ensures relations == Related(old(relations), keys, idx)
    {
      var todo := keys;
      while todo != {}
        invariant todo <= keys
        invariant relations.Keys == old(relations).Keys + (keys - todo)
        invariant forall k :: k in relations ==> relations[k] == if k in keys - todo then idx else old(relations)[k]
      {
        var k :| k in todo;
        relations := relations[k := idx];
        todo := todo - {k};
      }
      assert relations == Related(old(relations), keys, idx);
    }

    method Reset()
      modifies this
      ensures relations == map[]
    {
      relations := map[];
    }

    /** No known key: no conflict. All known keys with one worker: that worker. Otherwise -1. */
    method DetectConflict(keys: set<Bytes>) returns (conflict: bool, idx: int)
      ensures conflict <==> !Free(relations, keys)
      ensures conflict && idx >= 0 ==> BoundTo(relations, keys, idx)
      ensures conflict && idx < 0 ==> idx == -1 && Clash(relations, keys)
    {
      idx := -1;
      var todo := keys;
      while todo != {}
        invariant todo <= keys && idx >= -1
        invariant idx == -1 ==> Free(relations, keys - todo)
        invariant idx >= 0 ==> BoundTo(relations, keys - todo, idx)
      {
        var k :| k in todo;
        if k in relations {
          if idx == -1 {
            idx := relations[k];
          } else if idx != relations[k] {
            ghost var l :| l in keys - todo && l in relations;
            assert relations[k] != relations[l];
            return true, -1;
          }
        }
        todo := todo - {k};
      }
      assert keys - todo == keys;
      return idx != -1, idx;
    }
  }

  // ----- Workers -----

  /** What a worker's loop may wake up to; `Closed` is a nil transaction. */
  datatype Input = Got(item: Item) | Notify | Closed

  datatype Output = Executed(rows: seq<Row>, replicaID: nat) | MarkDone

  function ExecutedRows(log: seq<Output>): seq<Row> {
    if log == [] then []
    else ExecutedRows(log[..|log| - 1]) + (if log[|log| - 1].Executed? then log[|log| - 1].rows else [])
  }

  function InputRows(inputs: seq<Input>): seq<Row> {
    if inputs == [] then []
    else
      var last := inputs[|inputs| - 1];
      InputRows(inputs[..|inputs| - 1]) + (if last.Got? && last.item.Data? then last.item.job.rows else [])
  }

  predicate IsMark(i: Input) { i == Got(Finish) }

  /** Every acknowledged mark was met in the input, with all rows before it executed by then. */
  ghost predicate MarksKept(log: seq<Output>, inputs: seq<Input>) {
    forall k :: 0 <= k < |log| && log[k].MarkDone? ==> exists m: nat :: Met(log, inputs, k, m)
  }

  function Acks(log: seq<Output>): nat {
    if log == [] then 0 else Acks(log[..|log| - 1]) + (if log[|log| - 1].MarkDone? then 1 else 0)
  }

  function Marks(inputs: seq<Input>): nat {
    if inputs == [] then 0 else Marks(inputs[..|inputs| - 1]) + (if IsMark(inputs[|inputs| - 1]) then 1 else 0)
  }

  /** The mark at `k` of the log was met at `m` of the input. */
  ghost predicate Met(log: seq<Output>, inputs: seq<Input>, k: nat, m: nat) {
    k <= |log| && m < |inputs| && IsMark(inputs[m]) && ExecutedRows(log[..k]) == InputRows(inputs[..m])
  }

  lemma SeenMore(inputs: seq<Input>, i: Input)
    ensures InputRows(inputs + [i]) == InputRows(inputs) + (if i.Got? && i.item.Data? then i.item.job.rows else [])
    ensures Marks(inputs + [i]) == Marks(inputs) + (if IsMark(i) then 1 else 0)
  {
    assert (inputs + [i])[..|inputs|] == inputs;
  }

  /** Executing more and reading more keeps what was acknowledged. */
  lemma MarksStay(log: seq<Output>, log': seq<Output>, inputs: seq<Input>, i: Input)
    requires MarksKept(log, inputs)
    requires log' == log || (|log'| == |log| + 1 && log'[..|log|] == log && log'[|log|].Executed?)
    ensures MarksKept(log', inputs + [i]) && Acks(log') == Acks(log)
  {
    var inputs' := inputs + [i];
    forall k | 0 <= k < |log'| && log'[k].MarkDone? ensures exists m: nat :: Met(log', inputs', k, m) {
      assert log'[k] == log[k];
      var m: nat :| Met(log, inputs, k, m);
      assert log'[..k] == log[..k] && inputs'[..m] == inputs[..m];
      assert Met(log', inputs', k, m);
    }
  }

  lemma MarkAdded(log: seq<Output>, inputs: seq<Input>, i: Input)
    requires MarksKept(log, inputs + [i]) && IsMark(i) && ExecutedRows(log) == InputRows(inputs)
    ensures MarksKept(log + [MarkDone], inputs + [i])
    ensures ExecutedRows(log + [MarkDone]) == ExecutedRows(log) && Acks(log + [MarkDone]) == Acks(log) + 1
  {
    var log', inputs' := log + [MarkDone], inputs + [i];
    assert log'[..|log|] == log && inputs'[..|inputs|] == inputs;
    forall k | 0 <= k < |log'| && log'[k].MarkDone? ensures exists m: nat :: Met(log', inputs', k, m) {
      if k < |log| {
        assert log'[k] == log[k] && log'[..k] == log[..k];
        var m: nat :| Met(log, inputs', k, m);
        assert Met(log', inputs', k, m);
      } else {
        assert Met(log', inputs', k, |inputs|);
      }
    }
  }

  /** A batch is made of transactions of one replica, of more than one only within the row limit. */
  ghost predicate IsBatch(rows: seq<Row>, replicaID: nat, jobs: seq<Job>, maxTxnRow: nat) {
    RowsOf(jobs) == rows && (forall j :: j in jobs ==> j.replicaID == replicaID) && (|rows| <= maxTxnRow || |jobs| == 1)
  }

  ghost predicate Uniform(log: seq<Output>, maxTxnRow: nat) {
    forall k {:trigger log[k]} :: 0 <= k < |log| && log[k].Executed? ==>
        exists jobs :: IsBatch(log[k].rows, log[k].replicaID, jobs, maxTxnRow)
  }

  /** The transaction can be executed with the rows gathered. */
  predicate Fits(rows: seq<Row>, replicaID: nat, job: Job, maxTxnRow: nat) {
    job.replicaID == replicaID && |rows| + |job.rows| <= maxTxnRow
  }

  /** The rows gathered are executed exactly when the next item is a mark or does not fit. */
  ghost predicate Batched(before: seq<Output>, rows: seq<Row>, replicaID: nat, item: Item, maxTxnRow: nat,
                          after: seq<Output>) {
    if rows == [] || (item.Data? && Fits(rows, replicaID, item.job, maxTxnRow)) then after == before
    else after == before + [Executed(rows, replicaID)]
  }

  class SinkWorker {
    const maxTxnRow: nat
    var toExecRows: seq<Row>
    var replicaID: nat

    // What was executed downstream and acknowledged, in order.
    var log: seq<Output>

    // The transactions whose rows are gathered.
    ghost var gathered: seq<Job>

    ghost predicate Valid()
      reads this
    {
      && toExecRows == RowsOf(gathered)
      && (forall j :: j in gathered ==> j.replicaID == replicaID)
      && (|toExecRows| <= maxTxnRow || |gathered| == 1)
      && Uniform(log, maxTxnRow)
    }

    constructor (maxTxnRow: nat)
      ensures Valid() && this.maxTxnRow == maxTxnRow && gathered == [] && replicaID == 0 && log == []
    {
      this.maxTxnRow := maxTxnRow;
      toExecRows, replicaID, log, gathered := [], 0, [], [];
    }

    method FlushRows()
      requires Valid()
      modifies this`toExecRows, this`log, this`gathered
      ensures Valid() && gathered == []
      ensures log == old(log) || log == old(log) + [Executed(old(toExecRows), replicaID)]
      ensures old(toExecRows) == [] ==> log == old(log)
      ensures ExecutedRows(log) == ExecutedRows(old(log)) + old(toExecRows)
    {
      if |toExecRows| != 0 {
        assert IsBatch(toExecRows, replicaID, gathered, maxTxnRow);
        log := log + [Executed(toExecRows, replicaID)];
        assert log[..|log| - 1] == old(log);
      }
      toExecRows := [];
      gathered := [];
    }

    /** Whether a step may have executed what was gathered, and nothing else happened downstream. */
    twostate predicate AtMostFlushed()
      reads this
    {
      || log == old(log)
      || (|log| == |old(log)| + 1 && log[..|old(log)|] == old(log) && log[|old(log)|].Executed?)
    }

    method Gather(job: Job)
      requires Valid() && (gathered == [] || !MustFlush(Worker([], gathered, replicaID), job, maxTxnRow))
      modifies this`toExecRows, this`gathered, this`replicaID
      ensures Valid() && gathered == old(gathered) + [job] && replicaID == job.replicaID
      ensures toExecRows == old(toExecRows) + job.rows
    {
      replicaID := job.replicaID;
      toExecRows := toExecRows + job.rows;
      gathered := gathered + [job];
      RowsOfSnoc(old(gathered), job);
    }

    /** Executes what is gathered if the transaction does not fit. */
    method MakeRoom(job: Job)
      requires Valid()
      modifies this`toExecRows, this`log, this`gathered
      ensures Valid() && AtMostFlushed()
      ensures var flush := MustFlush(Worker([], old(gathered), replicaID), job, maxTxnRow);
              && gathered == (if flush then [] else old(gathered))
              && ExecutedRows(log) == ExecutedRows(old(log)) + (if flush then old(toExecRows) else [])
      ensures ExecutedRows(log) + toExecRows == ExecutedRows(old(log)) + old(toExecRows)
      ensures Batched(old(log), old(toExecRows), replicaID, Data(job), maxTxnRow, log)
    {
      if job.replicaID != replicaID || |toExecRows| + |job.rows| > maxTxnRow {
        FlushRows();
      }
    }

    /** Moves as the worker of the state machine does on the same item. */
    method Handle(item: Item)
      requires Valid()
      modifies this`toExecRows, this`log, this`gathered, this`replicaID
      ensures Valid() && AtMostFlushed()
      ensures var w := Worker([item], old(gathered), old(replicaID));
              && Worker([], gathered, replicaID) == Took(w, maxTxnRow)
              && ExecutedRows(log) == ExecutedRows(old(log)) + RowsOf(Executes(w, maxTxnRow))
      ensures ExecutedRows(log) + toExecRows
              == ExecutedRows(old(log)) + old(toExecRows) + (if item.Data? then item.job.rows else [])
      ensures item.Finish? ==> toExecRows == []
      ensures Batched(old(log), old(toExecRows), old(replicaID), item, maxTxnRow, log)
    {
      if item.Finish? {
        FlushRows();
      } else {
        MakeRoom(item.job);
        ghost var rows := toExecRows;
        Gather(item.job);
        assert ExecutedRows(log) + toExecRows == ExecutedRows(log) + rows + item.job.rows;
      }
    }

    /** Everything read so far is executed or gathered, in order, and every mark was acknowledged, none early. */
    ghost predicate InStep(seen: seq<Input>)
      reads this
    {
      ExecutedRows(log) + toExecRows == InputRows(seen) && MarksKept(log, seen) && Acks(log) == Marks(seen)
    }

    method Absorb(item: Item, ghost seen: seq<Input>)
      requires Valid() && MarksKept(log, seen)
      modifies this`toExecRows, this`log, this`gathered, this`replicaID
      ensures Valid() && MarksKept(log, seen + [Got(item)]) && Acks(log) == Acks(old(log))
      ensures ExecutedRows(log) + toExecRows
              == ExecutedRows(old(log)) + old(toExecRows) + (if item.Data? then item.job.rows else [])
      ensures item.Finish? ==> toExecRows == []
    {
      ghost var before := log;
      Handle(item);
      MarksStay(before, log, seen, Got(item));
    }

    method WakeFor(item: Item, ghost seen: seq<Input>)
      requires Valid() && InStep(seen)
      modifies this`toExecRows, this`log, this`gathered, this`replicaID
      ensures Valid() && InStep(seen + [Got(item)])
      ensures item.Finish? ==> toExecRows == []
    {
      SeenMore(seen, Got(item));
      ghost var rows := InputRows(seen);
      Absorb(item, seen);
      if item.Finish? {
        assert ExecutedRows(log) + [] == ExecutedRows(log) && rows + [] == rows;
        MarkAdded(log, seen, Got(item));
        log := log + [MarkDone];
      }
    }

    method Wake(input: Input, ghost seen: seq<Input>)
      requires Valid() && InStep(seen)
      modifies this`toExecRows, this`log, this`gathered, this`replicaID
      ensures Valid() && InStep(seen + [input])
      ensures !(input.Got? && input.item.Data?) ==> toExecRows == []
    {
      if input.Got? {
        WakeFor(input.item, seen);
      } else {
        ghost var before := log;
        SeenMore(seen, input);
        FlushRows();
        MarksStay(before, log, seen, input);
      }
    }

    /** Rows come out in the order they came in, none lost and none twice, in batches of one
        replica; a mark is acknowledged only when all rows before it are executed. */
    method Run(inputs: seq<Input>) returns (n: nat)
      requires Valid() && gathered == [] && log == []
      modifies this
      ensures n <= |inputs| && (n < |inputs| ==> n > 0 && inputs[n - 1].Closed?)
      ensures InStep(inputs[..n]) && Uniform(log, maxTxnRow)
      ensures n > 0 && !(inputs[n - 1].Got? && inputs[n - 1].item.Data?) ==> toExecRows == []
    {
      n := 0;
      while n < |inputs|
        invariant 0 <= n <= |inputs| && Valid() && InStep(inputs[..n])
        invariant n > 0 && !(inputs[n - 1].Got? && inputs[n - 1].item.Data?) ==> toExecRows == []
      {
        assert inputs[..n + 1] == inputs[..n] + [inputs[n]];
        Wake(inputs[n], inputs[..n]);
        n := n + 1;
        if inputs[n - 1].Closed? {
          return;
        }
      }
    }
  }

  // ----- The dispatcher -----

  /** The dispatching loop. Its own fields are the causality map and the turn; the
      channels, the workers and the database are the ghost state `world`, which the
      workers may change between any two steps of the loop. */
  class TxnDispatcher<DB(!new)> {
    const nWorkers: nat
    const causality: Causality
    var rowsChIdx: nat

    ghost const maxTxnRow: nat
    ghost const start: DB
    ghost const order: seq<Job>
    ghost var world: Sink<DB>
    ghost var left: seq<Assigned>

    ghost predicate Sound(apply: (DB, Row) -> DB)
      reads this
    {
      Inv(apply, start, order, world, left) && |world.workers| == nWorkers
    }

    ghost predicate Valid(apply: (DB, Row) -> DB)
      reads this, causality
    {
      Sound(apply) && world.relations == causality.relations && world.next == rowsChIdx
    }

    constructor (nWorkers: nat, ghost apply: (DB, Row) -> DB, ghost maxTxnRow: nat, ghost db: DB, ghost order: seq<Job>)
      requires nWorkers > 0
      ensures Valid(apply) && fresh(causality) && world.phase.Dispatching? && world.todo == order
      ensures start == db && this.order == order
    {
      this.nWorkers, this.maxTxnRow, start, this.order := nWorkers, maxTxnRow, db, order;
      causality := new Causality();
      rowsChIdx := 0;
      ghost var s := Starting(apply, db, order, nWorkers);
      world, left := s, [];
    }

    /** A step of the state machine happens. */
    ghost method Did(apply: (DB, Row) -> DB, e: Event)
      requires KeysDecide(apply, order) && Sound(apply) && Enabled(world, e)
      modifies this`world, this`left
      ensures Sound(apply) && world == Step(apply, old(world), e, maxTxnRow)
    {
      left := StepOk(apply, start, order, world, left, e, maxTxnRow);
      world := Step(apply, world, e, maxTxnRow);
    }

    /** The workers have moved, the dispatcher has not. */
    twostate predicate OnlyWorkersMoved()
      reads this
    {
      && world.todo == old(world).todo && world.relations == old(world).relations
      && world.next == old(world).next && world.phase == old(world).phase
    }

    /** Some worker takes an item, after any number of notifications. */
    ghost method WorkerMoves(apply: (DB, Row) -> DB, i: nat)
      requires KeysDecide(apply, order) && Sound(apply) && i < nWorkers && world.workers[i].chan != []
      modifies this`world, this`left
      ensures Sound(apply) && OnlyWorkersMoved() && Backlog(world.workers) < Backlog(old(world).workers)
    {
      var notices: nat := *;
      while notices > 0
        invariant Sound(apply) && OnlyWorkersMoved() && world.workers[i].chan == old(world).workers[i].chan
        invariant Backlog(world.workers) == Backlog(old(world).workers)
      {
        var j: nat := *;
        if 0 <= j < nWorkers {
          BacklogChange(world.workers, j, world.workers[j].(buffer := []));
          Did(apply, Notified(j));
        }
        notices := notices - 1;
      }
      BacklogChange(world.workers, i, Took(world.workers[i], maxTxnRow));
      Did(apply, Receive(i));
    }

    /** Any number of steps of any workers. */
    ghost method Others(apply: (DB, Row) -> DB)
      requires KeysDecide(apply, order) && Sound(apply)
      modifies this`world, this`left
      ensures Sound(apply) && OnlyWorkersMoved()
    {
      var steps: nat := *;
      while steps > 0
        invariant Sound(apply) && OnlyWorkersMoved()
      {
        var i: nat := *;
        if 0 <= i < nWorkers && world.workers[i].chan != [] {
          WorkerMoves(apply, i);
        }
        steps := steps - 1;
      }
    }

    /** The wait for the barrier ends: as long as a mark is out, some worker can move. */
    ghost method WaitForMarks(apply: (DB, Row) -> DB)
      requires KeysDecide(apply, order) && Sound(apply) && world.phase.Waiting?
      modifies this`world, this`left
      ensures Sound(apply) && OnlyWorkersMoved() && world.wg == 0
    {
      while world.wg != 0
        invariant Sound(apply) && OnlyWorkersMoved()
        decreases Backlog(world.workers)
      {
        var marked: nat :| marked in Marked(world.workers);
        var i: nat := *;
        if 0 <= i < nWorkers && world.workers[i].chan != [] {
          WorkerMoves(apply, i);
        } else {
          WorkerMoves(apply, marked);
        }
      }
    }

    /** Announces the barrier to every worker and waits until all have passed it. */
    method NotifyAndWaitExec(ghost apply: (DB, Row) -> DB)
      requires KeysDecide(apply, order) && Sound(apply) && world.phase == Broadcasting(0)
      modifies this`world, this`left
      ensures Sound(apply) && world == old(world).(workers := world.workers, wg := 0, phase := Waiting, db := world.db)
    {
      var k := 0;
      while k < nWorkers
        invariant 0 <= k <= nWorkers && Sound(apply)
        invariant world.todo == old(world).todo && world.relations == old(world).relations
                  && world.next == old(world).next
        invariant world.phase == if k < nWorkers then Broadcasting(k) else Waiting
      {
        Others(apply);
        Did(apply, Broadcast);
        k := k + 1;
      }
      WaitForMarks(apply);
    }

    /** To the worker that all known keys went to. */
    method SendTo(ghost apply: (DB, Row) -> DB, keys: set<Bytes>, idx: nat)
      requires KeysDecide(apply, order) && Valid(apply) && world.phase.Dispatching? && world.todo != []
      requires keys == world.todo[0].keys && BoundTo(world.relations, keys, idx)
      modifies this`world, this`left, causality
      ensures Valid(apply) && world.phase.Dispatching? && world.todo == old(world).todo[1..]
    {
      DispatchedBound(world, idx);
      Did(apply, Dispatch);
      causality.Add(keys, idx);
    }

    /** Past a full barrier, with the conflicts forgotten. */
    method PassBarrier(ghost apply: (DB, Row) -> DB)
      requires KeysDecide(apply, order) && Valid(apply) && world.phase.Dispatching?
      requires world.todo != [] && Clash(world.relations, world.todo[0].keys)
      modifies this`world, this`left, causality
      ensures Sound(apply) && world.phase.Waiting? && world.wg == 0
      ensures world.todo == old(world).todo && world.next == rowsChIdx && causality.relations == map[]
    {
      Did(apply, Dispatch);
      NotifyAndWaitExec(apply);
      causality.Reset();
    }

    /** The transaction at the head of `todo` can go to the worker whose turn it is. */
    ghost predicate CanSendNext()
      reads this, causality
    {
      && world.todo != [] && world.next == rowsChIdx
      && if world.phase.Dispatching?
         then world.relations == causality.relations && Free(world.relations, world.todo[0].keys)
         else world.phase.Waiting? && world.wg == 0 && causality.relations == map[]
    }

    ghost method GoesNext(apply: (DB, Row) -> DB)
      requires KeysDecide(apply, order) && Sound(apply) && CanSendNext()
      modifies this`world, this`left
      ensures Sound(apply) && world.phase.Dispatching? && world.todo == old(world).todo[1..]
      ensures world.next == (rowsChIdx + 1) % nWorkers
      ensures world.relations == Related(causality.relations, old(world).todo[0].keys, rowsChIdx)
    {
      if world.phase.Dispatching? {
        Did(apply, Dispatch);
      } else {
        Did(apply, Resume);
      }
    }

    /** To the worker whose turn it is. */
    method SendNext(ghost apply: (DB, Row) -> DB, keys: set<Bytes>)
      requires KeysDecide(apply, order) && Sound(apply) && CanSendNext() && keys == world.todo[0].keys
      modifies this`world, this`left, this`rowsChIdx, causality
      ensures Valid(apply) && world.phase.Dispatching? && world.todo == old(world).todo[1..]
    {
      GoesNext(apply);
      causality.Add(keys, rowsChIdx);
      rowsChIdx := rowsChIdx + 1;
      rowsChIdx := rowsChIdx % nWorkers;
    }

    method ResolveConflict(ghost apply: (DB, Row) -> DB, txn: Txn)
      requires KeysDecide(apply, order) && Valid(apply) && world.phase.Dispatching? && WellFormedTxn(txn)
      requires world.todo != [] && world.todo[0] == JobOf(txn)
      modifies this`world, this`left, this`rowsChIdx, causality
      ensures Valid(apply) && world.phase.Dispatching? && world.todo == old(world).todo[1..]
    {
      Others(apply);
      var keys := Keys.GenTxnKeys(txn);
      var conflict, idx := causality.DetectConflict(keys);
      if conflict {
        if idx >= 0 {
          SendTo(apply, keys, idx);
          return;
        }
        PassBarrier(apply);
      }
      SendNext(apply, keys);
    }

    /** The last barrier: nothing is left to execute. */
    method Finish(ghost apply: (DB, Row) -> DB)
      requires KeysDecide(apply, order) && Sound(apply) && world.phase.Dispatching? && world.todo == []
      modifies this`world, this`left
      ensures world.db == Serial(apply, start, order)
    {
      Others(apply);
      Did(apply, Dispatch);
      NotifyAndWaitExec(apply);
      Did(apply, Resume);
    }
  }

  /** Transactions of the groups without a common causality key commute. */
  ghost predicate GroupsDecide<DB(!new)>(apply: (DB, Row) -> DB, groups: seq<seq<Txn>>)
    requires forall g, i :: 0 <= g < |groups| && 0 <= i < |groups[g]| ==> WellFormedTxn(groups[g][i])
  {
    forall g, i, h, j :: 0 <= g < |groups| && 0 <= i < |groups[g]| && 0 <= h < |groups| && 0 <= j < |groups[h]| ==>
      Keys.TxnKeys(groups[g][i]) !! Keys.TxnKeys(groups[h][j]) ==>
          Commute(apply, JobOf(groups[g][i]), JobOf(groups[h][j]))
  }

  lemma {:induction false} FromMember(out: seq<Txn>, tags: seq<nat>, k: nat)
    requires |out| == |tags| && k < |out|
    ensures out[k] in Merge.From(out, tags, tags[k])
  {
    var last := |out| - 1;
    if k < last {
      FromMember(out[..last], tags[..last], k);
    }
  }

  lemma MergedTxn(out: seq<Txn>, tags: seq<nat>, groups: seq<seq<Txn>>, k: nat) returns (i: nat)
    requires Merge.Merges(out, tags, groups) && k < |out|
    ensures tags[k] < |groups| && i < |groups[tags[k]]| && groups[tags[k]][i] == out[k]
  {
    FromMember(out, tags, k);
    assert Merge.From(out, tags, tags[k]) == groups[tags[k]];
    i :| 0 <= i < |groups[tags[k]]| && groups[tags[k]][i] == out[k];
  }

  lemma PairDecides<DB(!new)>(apply: (DB, Row) -> DB, out: seq<Txn>, tags: seq<nat>, groups: seq<seq<Txn>>, k: nat,
                              l: nat)
    requires forall g, i :: 0 <= g < |groups| && 0 <= i < |groups[g]| ==> WellFormedTxn(groups[g][i])
    requires Merge.Merges(out, tags, groups) && GroupsDecide(apply, groups) && k < |out| && l < |out|
    ensures WellFormedTxn(out[k]) && WellFormedTxn(out[l])
    ensures JobOf(out[k]).keys !! JobOf(out[l]).keys ==> Commute(apply, JobOf(out[k]), JobOf(out[l]))
  {
    var i := MergedTxn(out, tags, groups, k);
    var j := MergedTxn(out, tags, groups, l);
  }

  lemma MergeDecides<DB(!new)>(apply: (DB, Row) -> DB, out: seq<Txn>, tags: seq<nat>, groups: seq<seq<Txn>>)
    requires forall g, i :: 0 <= g < |groups| && 0 <= i < |groups[g]| ==> WellFormedTxn(groups[g][i])
    requires Merge.Merges(out, tags, groups) && GroupsDecide(apply, groups)
    ensures forall k :: 0 <= k < |out| ==> WellFormedTxn(out[k])
    ensures KeysDecide(apply, Jobs(out))
  {
    forall k | 0 <= k < |out| ensures WellFormedTxn(out[k]) {
      var i := MergedTxn(out, tags, groups, k);
    }
    var jobs := Jobs(out);
    forall t, u | t in jobs && u in jobs && t.keys !! u.keys ensures Commute(apply, t, u) {
      var k: nat :| k < |jobs| && jobs[k] == t;
      var l: nat :| l < |jobs| && jobs[l] == u;
      PairDecides(apply, out, tags, groups, k, l);
    }
  }

  /** Running the groups through the workers has the effect of running their merge one
      transaction at a time, however the workers are scheduled. */
  method DispatchAndExecTxns<DB(!new)>(groups: seq<seq<Txn>>, nWorkers: nat, ghost apply: (DB, Row) -> DB,
                                       ghost maxTxnRow: nat, ghost db: DB)
    returns (order: seq<Txn>, ghost tags: seq<nat>, ghost after: DB)
    requires nWorkers > 0
    requires forall g, i :: 0 <= g < |groups| && 0 <= i < |groups[g]| ==> WellFormedTxn(groups[g][i])
    requires GroupsDecide(apply, groups)
    ensures Merge.Merges(order, tags, groups) && (Merge.AllSorted(groups) ==> Merge.Sorted(order))
    ensures forall k :: 0 <= k < |order| ==> WellFormedTxn(order[k])
    ensures after == Serial(apply, db, Jobs(order))
  {
    var h := new Merge.TxnsHeap(groups);
    order, tags := h.Iter();
    MergeDecides(apply, order, tags, groups);
    after := DispatchInOrder(order, nWorkers, apply, maxTxnRow, db);
  }

  method DispatchInOrder<DB(!new)>(order: seq<Txn>, nWorkers: nat, ghost apply: (DB, Row) -> DB, ghost maxTxnRow: nat,
                                   ghost db: DB)
    returns (ghost after: DB)
    requires nWorkers > 0
    requires forall k :: 0 <= k < |order| ==> WellFormedTxn(order[k])
    requires KeysDecide(apply, Jobs(order))
    ensures after == Serial(apply, db, Jobs(order))
  {
    ghost var jobs := Jobs(order);
    var d := new TxnDispatcher<DB>(nWorkers, apply, maxTxnRow, db, jobs);
    var k := 0;
    while k < |order|
      invariant 0 <= k <= |order|
      invariant fresh(d) && fresh(d.causality) && d.Valid(apply) && d.order == jobs && d.start == db
      invariant d.world.phase.Dispatching? && d.world.todo == jobs[k..]
    {
      d.ResolveConflict(apply, order[k]);
      k := k + 1;
    }
    d.Finish(apply);
    after := d.world.db;
  }

  lemma Starting<DB>(apply: (DB, Row) -> DB, db: DB, order: seq<Job>, n: nat) returns (s: Sink<DB>)
    requires n > 0
    ensures Inv(apply, db, order, s, [])
    ensures |s.workers| == n && s.relations == map[] && s.next == 0 && s.phase.Dispatching? && s.todo == order
  {
    s := Start(db, order, n);
    InitInv(apply, db, order, n);
  }

  function Backlog(workers: seq<Worker>): nat {
    if workers == [] then 0 else Backlog(workers[..|workers| - 1]) + |workers[|workers| - 1].chan|
  }

  lemma {:induction false} BacklogChange(workers: seq<Worker>, i: nat, w: Worker)
    requires i < |workers|
    ensures Backlog(workers[i := w]) == Backlog(workers) + |w.chan| - |workers[i].chan|
  {
    var last := |workers| - 1;
    if i < last {
      BacklogChange(workers[..last], i, w);
      assert workers[i := w][..last] == workers[..last][i := w];
    } else {
      assert workers[i := w][..last] == workers[..last];
    }
  }

  lemma DispatchedBound<DB>(s: Sink<DB>, idx: nat)
    requires ShapeOk(s) && s.todo != [] && BoundTo(s.relations, s.todo[0].keys, idx)
    ensures idx < |s.workers| && Dispatched(s) == Sent(s, idx)
  {
  }
}
