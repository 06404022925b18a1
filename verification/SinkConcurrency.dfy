/** Concurrent execution of transactions: the dispatcher, the workers' channels and
    buffers, and the barrier, as a state machine whose runs are all interleavings. */
module SinkConcurrency {
  import opened SinkTypes
  import Keys = CausalityKeys

  /** A transaction with its causality keys. */
  datatype Job = Job(keys: set<Bytes>, replicaID: nat, rows: seq<Row>)

  function JobOf(t: Txn): Job
    requires WellFormedTxn(t)
  {
    Job(Keys.TxnKeys(t), t.replicaID, t.rows)
  }

  function Jobs(txns: seq<Txn>): (jobs: seq<Job>)
    requires forall i :: 0 <= i < |txns| ==> WellFormedTxn(txns[i])
    ensures |jobs| == |txns| && forall i :: 0 <= i < |txns| ==> jobs[i] == JobOf(txns[i])
  {
    if txns == [] then [] else [JobOf(txns[0])] + Jobs(txns[1..])
  }

  // ----- Serial execution -----

  function RunRows<DB>(apply: (DB, Row) -> DB, db: DB, rows: seq<Row>): DB {
    if rows == [] then db else RunRows(apply, apply(db, rows[0]), rows[1..])
  }

  /** One transaction after the other. */
  function Serial<DB>(apply: (DB, Row) -> DB, db: DB, jobs: seq<Job>): DB {
    if jobs == [] then db else Serial(apply, RunRows(apply, db, jobs[0].rows), jobs[1..])
  }

  function RowsOf(jobs: seq<Job>): seq<Row> {
    if jobs == [] then [] else jobs[0].rows + RowsOf(jobs[1..])
  }

  lemma {:induction false} RowsOfSnoc(jobs: seq<Job>, j: Job)
    ensures RowsOf(jobs + [j]) == RowsOf(jobs) + j.rows
  {
    if jobs != [] {
      assert (jobs + [j])[1..] == jobs[1..] + [j];
      RowsOfSnoc(jobs[1..], j);
    }
  }

  lemma {:induction false} RunRowsConcat<DB>(apply: (DB, Row) -> DB, db: DB, a: seq<Row>, b: seq<Row>)
    ensures RunRows(apply, db, a + b) == RunRows(apply, RunRows(apply, db, a), b)
    decreases |a|
  {
    if a == [] {
      assert a + b == b;
    } else {
      assert (a + b)[1..] == a[1..] + b;
      RunRowsConcat(apply, apply(db, a[0]), a[1..], b);
    }
  }

  /** A batch of rows does what its transactions do one after the other. */
  lemma {:induction false} BatchIsSerial<DB>(apply: (DB, Row) -> DB, db: DB, jobs: seq<Job>)
    ensures RunRows(apply, db, RowsOf(jobs)) == Serial(apply, db, jobs)
    decreases |jobs|
  {
    if jobs != [] {
      RunRowsConcat(apply, db, jobs[0].rows, RowsOf(jobs[1..]));
      BatchIsSerial(apply, RunRows(apply, db, jobs[0].rows), jobs[1..]);
    }
  }

  ghost predicate Commute<DB(!new)>(apply: (DB, Row) -> DB, t: Job, u: Job) {
    forall db: DB {:trigger RunRows(apply, RunRows(apply, db, t.rows), u.rows)} ::
      RunRows(apply, RunRows(apply, db, t.rows), u.rows) == RunRows(apply, RunRows(apply, db, u.rows), t.rows)
  }

  /** What the causality keys are for: transactions without a common key commute. */
  ghost predicate KeysDecide<DB(!new)>(apply: (DB, Row) -> DB, jobs: seq<Job>) {
    forall t, u {:trigger Commute(apply, t, u)} :: t in jobs && u in jobs && t.keys !! u.keys ==> Commute(apply, t, u)
  }

  // ----- Conflict detection -----

  type Relations = map<Bytes, nat>

  predicate Free(relations: Relations, keys: set<Bytes>) {
    forall k :: k in keys ==> k !in relations
  }

  /** Some key is known, and all known keys went to the same worker. */
  predicate BoundTo(relations: Relations, keys: set<Bytes>, idx: nat) {
    && (exists k :: k in keys && k in relations)
    && forall k :: k in keys && k in relations ==> relations[k] == idx
  }

  predicate Clash(relations: Relations, keys: set<Bytes>) {
    exists k, l :: k in keys && l in keys && k in relations && l in relations && relations[k] != relations[l]
  }

  ghost function Related(relations: Relations, keys: set<Bytes>, idx: nat): (m: Relations)
    ensures m.Keys == relations.Keys + keys
    ensures forall k :: k in m ==> m[k] == if k in keys then idx else relations[k]
  {
    if keys == {} then relations
    else
      var k :| k in keys;
      Related(relations, keys - {k}, idx)[k := idx]
  }

  // ----- State machine -----

  datatype Item = Data(job: Job) | Finish

  /** A worker's channel, the transactions whose rows it has gathered, and their replica. */
  datatype Worker = Worker(chan: seq<Item>, buffer: seq<Job>, replicaID: nat)

  datatype Phase = Dispatching | Broadcasting(next: nat) | Waiting | Stopped

  datatype Sink<DB> = Sink(
    todo: seq<Job>,
    relations: Relations,
    next: nat,
    workers: seq<Worker>,
    wg: int,
    phase: Phase,
    db: DB)

  const IDLE: Worker := Worker([], [], 0)

  function Idle(n: nat): (workers: seq<Worker>)
    ensures |workers| == n && forall i :: 0 <= i < n ==> workers[i] == IDLE
  {
    if n == 0 then [] else Idle(n - 1) + [IDLE]
  }

  function Start<DB>(db: DB, order: seq<Job>, n: nat): Sink<DB> {
    Sink(order, map[], 0, Idle(n), 0, Dispatching, db)
  }

  datatype Event =
    | Dispatch
    | Broadcast
    | Resume
    | Receive(worker: nat)
    | Notified(worker: nat)

  predicate Enabled<DB>(s: Sink<DB>, e: Event) {
    match e
    case Dispatch => s.phase.Dispatching?
    case Broadcast => s.phase.Broadcasting? && s.phase.next < |s.workers|
    case Resume => s.phase.Waiting? && s.wg == 0
    case Receive(i) => i < |s.workers| && s.workers[i].chan != []
    case Notified(i) => i < |s.workers|
  }

  /** Worker numbers are in range. */
  ghost predicate ShapeOk<DB>(s: Sink<DB>) {
    && s.next < |s.workers|
    && (forall k :: k in s.relations ==> s.relations[k] < |s.workers|)
    && (s.phase.Broadcasting? ==> s.phase.next < |s.workers|)
  }

  /** Hands the next transaction to a worker and remembers its keys. */
  ghost function Sent<DB>(s: Sink<DB>, idx: nat): Sink<DB>
    requires s.todo != [] && idx < |s.workers|
  {
    var w := s.workers[idx];
    s.(todo := s.todo[1..],
       relations := Related(s.relations, s.todo[0].keys, idx),
       workers := s.workers[idx := w.(chan := w.chan + [Data(s.todo[0])])])
  }

  /** Hands the next transaction to the worker whose turn it is. */
  ghost function SentRoundRobin<DB>(s: Sink<DB>): Sink<DB>
    requires s.todo != [] && s.next < |s.workers|
  {
    Sent(s, s.next).(next := (s.next + 1) % |s.workers|)
  }

  ghost function Dispatched<DB>(s: Sink<DB>): Sink<DB>
    requires ShapeOk(s)
  {
    if s.todo == [] then s.(phase := Broadcasting(0))
    else
      var keys := s.todo[0].keys;
      if Free(s.relations, keys) then SentRoundRobin(s)
      else if Clash(s.relations, keys) then s.(phase := Broadcasting(0))
      else
        var k :| k in keys && k in s.relations;
        Sent(s, s.relations[k])
  }

  /** Every worker has passed the barrier: conflicts are forgotten, and the transaction that waited is sent. */
  ghost function Resumed<DB>(s: Sink<DB>): Sink<DB>
    requires s.next < |s.workers|
  {
    var r := s.(relations := map[]);
    if s.todo == [] then r.(phase := Stopped) else SentRoundRobin(r.(phase := Dispatching))
  }

  function Flushed<DB>(apply: (DB, Row) -> DB, s: Sink<DB>, i: nat): Sink<DB>
    requires i < |s.workers|
  {
    s.(workers := s.workers[i := s.workers[i].(buffer := [])], db := RunRows(apply, s.db, RowsOf(s.workers[i].buffer)))
  }

  /** Whether a worker executes what it has before it takes up the transaction. */
  predicate MustFlush(w: Worker, job: Job, maxTxnRow: nat) {
    job.replicaID != w.replicaID || |RowsOf(w.buffer)| + |job.rows| > maxTxnRow
  }

  /** What a worker executes on taking the next item off its channel. */
  function Executes(w: Worker, maxTxnRow: nat): seq<Job>
    requires w.chan != []
  {
    if w.chan[0].Finish? || MustFlush(w, w.chan[0].job, maxTxnRow) then w.buffer else []
  }

  function Took(w: Worker, maxTxnRow: nat): Worker
    requires w.chan != []
  {
    match w.chan[0]
    case Finish => w.(chan := w.chan[1..], buffer := [])
    case Data(job) =>
      Worker(w.chan[1..], (if MustFlush(w, job, maxTxnRow) then [] else w.buffer) + [job], job.replicaID)
  }

  function Received<DB>(apply: (DB, Row) -> DB, s: Sink<DB>, i: nat, maxTxnRow: nat): Sink<DB>
    requires i < |s.workers| && s.workers[i].chan != []
  {
    var w := s.workers[i];
    s.(workers := s.workers[i := Took(w, maxTxnRow)],
       db := RunRows(apply, s.db, RowsOf(Executes(w, maxTxnRow))),
       wg := if w.chan[0].Finish? then s.wg - 1 else s.wg)
  }

  ghost function Step<DB>(apply: (DB, Row) -> DB, s: Sink<DB>, e: Event, maxTxnRow: nat): Sink<DB>
    requires ShapeOk(s) && Enabled(s, e)
  {
    match e
    case Dispatch => Dispatched(s)
    case Broadcast =>
      var w, k := s.workers[s.phase.next], s.phase.next;
      s.(workers := s.workers[k := w.(chan := w.chan + [Finish])],
         wg := s.wg + 1,
         phase := if k + 1 < |s.workers| then Broadcasting(k + 1) else Waiting)
    case Resume => Resumed(s)
    case Receive(i) => Received(apply, s, i, maxTxnRow)
    case Notified(i) => Flushed(apply, s, i)
  }

  // ----- What is left to execute -----

  /** A dispatched transaction that is not executed yet, and the worker it went to. */
  datatype Assigned = Assigned(job: Job, worker: nat)

  function SerialLeft<DB>(apply: (DB, Row) -> DB, db: DB, left: seq<Assigned>): DB {
    if left == [] then db else SerialLeft(apply, RunRows(apply, db, left[0].job.rows), left[1..])
  }

  function Mine(left: seq<Assigned>, i: nat): seq<Job> {
    if left == [] then [] else (if left[0].worker == i then [left[0].job] else []) + Mine(left[1..], i)
  }

  lemma {:induction false} MineSnoc(left: seq<Assigned>, a: Assigned, i: nat)
    ensures Mine(left + [a], i) == Mine(left, i) + (if a.worker == i then [a.job] else [])
  {
    if left != [] {
      assert (left + [a])[1..] == left[1..] + [a];
      MineSnoc(left[1..], a, i);
    }
  }

  lemma {:induction false} SerialLeftSnoc<DB>(apply: (DB, Row) -> DB, db: DB, left: seq<Assigned>, a: Assigned)
    ensures SerialLeft(apply, db, left + [a]) == RunRows(apply, SerialLeft(apply, db, left), a.job.rows)
    decreases |left|
  {
    if left != [] {
      assert (left + [a])[1..] == left[1..] + [a];
      SerialLeftSnoc(apply, RunRows(apply, db, left[0].job.rows), left[1..], a);
    }
  }

  ghost predicate Apart<DB(!new)>(apply: (DB, Row) -> DB, left: seq<Assigned>) {
    forall a, b {:trigger Commute(apply, a.job, b.job)} :: a in left && b in left && a.worker != b.worker ==>
      Commute(apply, a.job, b.job)
  }

  /** Only the first `n` transactions of one worker are gone. */
  ghost predicate SameBut(left: seq<Assigned>, left': seq<Assigned>, i: nat, n: nat)
    requires n <= |Mine(left, i)|
  {
    && Mine(left', i) == Mine(left, i)[n..]
    && (forall j: nat {:trigger Mine(left', j)} {:trigger Mine(left, j)} :: j != i ==> Mine(left', j) == Mine(left, j))
    && (forall a :: a in left' ==> a in left)
  }

  /** The first transaction of a worker can be executed ahead of everything else that is left. */
  lemma {:induction false} PullFirst<DB(!new)>(apply: (DB, Row) -> DB, db: DB, left: seq<Assigned>, i: nat)
    returns (left': seq<Assigned>)
    requires Apart(apply, left) && Mine(left, i) != []
    ensures SameBut(left, left', i, 1)
    ensures SerialLeft(apply, db, left) == SerialLeft(apply, RunRows(apply, db, Mine(left, i)[0].rows), left')
    decreases |left|
  {
    var a, rest := left[0], left[1..];
    assert forall b :: b in rest ==> b in left;
    if a.worker == i {
      left' := rest;
    } else {
      var t := Mine(rest, i)[0];
      MineIsLeft(rest, i, t);
      assert Assigned(t, i) in left && a in left && Commute(apply, a.job, Assigned(t, i).job);
      var rest' := PullFirst(apply, RunRows(apply, db, a.job.rows), rest, i);
      left' := [a] + rest';
      SameButCons(a, rest, rest', i);
    }
  }

  lemma SameButCons(a: Assigned, rest: seq<Assigned>, rest': seq<Assigned>, i: nat)
    requires a.worker != i && Mine(rest, i) != [] && SameBut(rest, rest', i, 1)
    ensures Mine([a] + rest, i) == Mine(rest, i) && SameBut([a] + rest, [a] + rest', i, 1)
  {
    var left, left' := [a] + rest, [a] + rest';
    assert left[1..] == rest && left'[1..] == rest';
    forall j: nat | j != i ensures Mine(left', j) == Mine(left, j) {
      assert Mine(rest', j) == Mine(rest, j);
    }
  }

  lemma {:induction false} MineIsLeft(left: seq<Assigned>, i: nat, t: Job)
    requires t in Mine(left, i)
    ensures Assigned(t, i) in left
  {
    if !(left[0].worker == i && left[0].job == t) {
      MineIsLeft(left[1..], i, t);
    }
  }

  lemma {:induction false} NoneMine(left: seq<Assigned>, i: nat)
    requires Mine(left, i) == []
    ensures forall a :: a in left ==> a.worker != i
  {
    if left != [] {
      NoneMine(left[1..], i);
    }
  }

  /** So can all that a worker has gathered. */
  lemma {:induction false} PullMany<DB(!new)>(apply: (DB, Row) -> DB, db: DB, left: seq<Assigned>, i: nat, n: nat)
    returns (left': seq<Assigned>)
    requires Apart(apply, left) && n <= |Mine(left, i)|
    ensures SameBut(left, left', i, n)
    ensures SerialLeft(apply, db, left) == SerialLeft(apply, Serial(apply, db, Mine(left, i)[..n]), left')
    decreases n
  {
    if n == 0 {
      left' := left;
      assert Mine(left, i)[..0] == [];
    } else {
      var mid := PullFirst(apply, db, left, i);
      var mine := Mine(left, i);
      left' := PullMany(apply, RunRows(apply, db, mine[0].rows), mid, i, n - 1);
      assert mine[..n][1..] == mine[1..][..n - 1] && mine[1..][n - 1..] == mine[n..];
    }
  }

  // ----- The invariant -----

  function DataOf(chan: seq<Item>): seq<Job> {
    if chan == [] then [] else (if chan[0].Data? then [chan[0].job] else []) + DataOf(chan[1..])
  }

  /** What a worker has yet to execute, in the order it will. */
  function Pending(w: Worker): seq<Job> {
    w.buffer + DataOf(w.chan)
  }

  /** Executing what is left, in dispatch order, and then what is not dispatched yet
      gives what serial execution gives. */
  ghost predicate ProgressOk<DB>(apply: (DB, Row) -> DB, db0: DB, order: seq<Job>, s: Sink<DB>, left: seq<Assigned>) {
    && (forall t :: t in s.todo ==> t in order)
    && Serial(apply, SerialLeft(apply, s.db, left), s.todo) == Serial(apply, db0, order)
  }

  /** The keys of everything left are remembered with the worker it went to. */
  ghost predicate Remembered(relations: Relations, a: Assigned) {
    forall k :: k in a.job.keys ==> k in relations && relations[k] == a.worker
  }

  ghost predicate LeftOk<DB>(order: seq<Job>, s: Sink<DB>, left: seq<Assigned>) {
    forall a :: a in left ==> a.worker < |s.workers| && a.job in order && Remembered(s.relations, a)
  }

  /** The worker was told of the barrier: the mark is last in its channel, or it has passed it. */
  predicate AtBarrier(w: Worker) {
    if w.chan == [] then w.buffer == []
    else w.chan[|w.chan| - 1].Finish? && Finish !in w.chan[..|w.chan| - 1]
  }

  predicate Announced(phase: Phase, i: nat) {
    match phase
    case Dispatching => false
    case Broadcasting(next) => i < next
    case Waiting => true
    case Stopped => true
  }

  /** The worker has exactly its share of what is left, in order. */
  ghost predicate WorkerOk(w: Worker, mine: seq<Job>, announced: bool) {
    && Pending(w) == mine
    && if announced then AtBarrier(w) else Finish !in w.chan
  }

  ghost predicate Served(workers: seq<Worker>, phase: Phase, left: seq<Assigned>, i: nat)
    requires i < |workers|
  {
    WorkerOk(workers[i], Mine(left, i), Announced(phase, i))
  }

  ghost predicate WorkersOk(workers: seq<Worker>, phase: Phase, left: seq<Assigned>) {
    forall i {:trigger Served(workers, phase, left, i)} :: 0 <= i < |workers| ==> Served(workers, phase, left, i)
  }

  function Marked(workers: seq<Worker>): set<nat> {
    set i: nat | i < |workers| && Finish in workers[i].chan
  }

  ghost predicate Inv<DB>(apply: (DB, Row) -> DB, db0: DB, order: seq<Job>, s: Sink<DB>, left: seq<Assigned>) {
    && ShapeOk(s)
    && ProgressOk(apply, db0, order, s, left)
    && LeftOk(order, s, left)
    && WorkersOk(s.workers, s.phase, left)
    && s.wg == |Marked(s.workers)|
    && (s.phase.Stopped? ==> s.todo == [] && left == [])
  }

  lemma InitInv<DB>(apply: (DB, Row) -> DB, db0: DB, order: seq<Job>, n: nat)
    requires n > 0
    ensures Inv(apply, db0, order, Start(db0, order, n), [])
  {
    IdleOk(n);
  }

  lemma IdleOk(n: nat)
    ensures WorkersOk(Idle(n), Dispatching, []) && Marked(Idle(n)) == {}
  {
    var workers := Idle(n);
    forall i | 0 <= i < n ensures Served(workers, Dispatching, [], i) {
      assert workers[i] == IDLE;
    }
  }

  // ----- Parts of steps -----

  lemma LeftIsApart<DB(!new)>(apply: (DB, Row) -> DB, order: seq<Job>, s: Sink<DB>, left: seq<Assigned>)
    requires KeysDecide(apply, order) && LeftOk(order, s, left)
    ensures Apart(apply, left)
  {
    forall a, b | a in left && b in left && a.worker != b.worker ensures Commute(apply, a.job, b.job) {
      assert Remembered(s.relations, a) && Remembered(s.relations, b);
      assert a.job.keys !! b.job.keys;
    }
  }

  /** Only one worker, its share and its standing at the barrier change. */
  lemma ChangeWorker(workers: seq<Worker>, phase: Phase, left: seq<Assigned>, i: nat, w: Worker, phase': Phase,
                     left': seq<Assigned>)
    requires WorkersOk(workers, phase, left) && i < |workers|
    requires WorkerOk(w, Mine(left', i), Announced(phase', i))
    requires forall j: nat :: j != i ==> Mine(left', j) == Mine(left, j) && Announced(phase', j) == Announced(phase, j)
    ensures WorkersOk(workers[i := w], phase', left')
  {
    var workers' := workers[i := w];
    forall j | 0 <= j < |workers| ensures Served(workers', phase', left', j) {
      assert j != i ==> Served(workers, phase, left, j);
    }
  }

  lemma MarkWorker(workers: seq<Worker>, i: nat, w: Worker)
    requires i < |workers|
    ensures |Marked(workers[i := w])|
            == |Marked(workers)| + (if Finish in w.chan then 1 else 0) - (if Finish in workers[i].chan then 1 else 0)
  {
    var others := Marked(workers) - {i};
    assert Marked(workers) == others + if Finish in workers[i].chan then {i} else {};
    assert Marked(workers[i := w]) == others + if Finish in w.chan then {i} else {};
  }

  lemma {:induction false} DataOfSnoc(chan: seq<Item>, item: Item)
    ensures DataOf(chan + [item]) == DataOf(chan) + (if item.Data? then [item.job] else [])
  {
    if chan != [] {
      assert (chan + [item])[1..] == chan[1..] + [item];
      DataOfSnoc(chan[1..], item);
    }
  }

  // ----- Sending -----

  lemma SendProgress<DB>(apply: (DB, Row) -> DB, db0: DB, order: seq<Job>, s: Sink<DB>, s': Sink<DB>,
                         left: seq<Assigned>, a: Assigned)
    requires ProgressOk(apply, db0, order, s, left) && s.todo != []
    requires a.job == s.todo[0] && s'.todo == s.todo[1..] && s'.db == s.db
    ensures ProgressOk(apply, db0, order, s', left + [a])
    ensures a.job in order
  {
    SerialLeftSnoc(apply, s.db, left, a);
  }

  lemma SendLeft<DB>(order: seq<Job>, s: Sink<DB>, s': Sink<DB>, left: seq<Assigned>, a: Assigned)
    requires LeftOk(order, s, left) && a.job in order && a.worker < |s.workers| == |s'.workers|
    requires forall k :: k in a.job.keys && k in s.relations ==> s.relations[k] == a.worker
    requires forall k :: k in s.relations ==> s.relations[k] < |s.workers|
    requires s'.relations == Related(s.relations, a.job.keys, a.worker)
    ensures LeftOk(order, s', left + [a])
    ensures forall k :: k in s'.relations ==> s'.relations[k] < |s'.workers|
  {
  }

  lemma SendWorker(workers: seq<Worker>, left: seq<Assigned>, a: Assigned)
    requires WorkersOk(workers, Dispatching, left) && a.worker < |workers|
    ensures var w := workers[a.worker];
            var workers' := workers[a.worker := w.(chan := w.chan + [Data(a.job)])];
            WorkersOk(workers', Dispatching, left + [a]) && |Marked(workers')| == |Marked(workers)|
  {
    var w := workers[a.worker];
    var w' := w.(chan := w.chan + [Data(a.job)]);
    assert Served(workers, Dispatching, left, a.worker);
    DataOfSnoc(w.chan, Data(a.job));
    forall j: nat ensures Mine(left + [a], j) == Mine(left, j) + (if a.worker == j then [a.job] else []) {
      MineSnoc(left, a, j);
    }
    assert Pending(w') == Pending(w) + [a.job];
    ChangeWorker(workers, Dispatching, left, a.worker, w', Dispatching, left + [a]);
    MarkWorker(workers, a.worker, w');
  }

  lemma SendOk<DB>(apply: (DB, Row) -> DB, db0: DB, order: seq<Job>, s: Sink<DB>, left: seq<Assigned>, idx: nat)
    requires Inv(apply, db0, order, s, left) && s.phase.Dispatching? && s.todo != [] && idx < |s.workers|
    requires forall k :: k in s.todo[0].keys && k in s.relations ==> s.relations[k] == idx
    ensures Inv(apply, db0, order, Sent(s, idx), left + [Assigned(s.todo[0], idx)])
  {
    var s', a := Sent(s, idx), Assigned(s.todo[0], idx);
    SendProgress(apply, db0, order, s, s', left, a);
    SendLeft(order, s, s', left, a);
    SendWorker(s.workers, left, a);
  }

  lemma SendRoundRobinOk<DB>(apply: (DB, Row) -> DB, db0: DB, order: seq<Job>, s: Sink<DB>, left: seq<Assigned>)
    returns (left': seq<Assigned>)
    requires Inv(apply, db0, order, s, left) && s.phase.Dispatching? && s.todo != []
             && Free(s.relations, s.todo[0].keys)
    ensures Inv(apply, db0, order, SentRoundRobin(s), left')
  {
    SendOk(apply, db0, order, s, left, s.next);
    left' := left + [Assigned(s.todo[0], s.next)];
    NextTurn(apply, db0, order, Sent(s, s.next), left');
  }

  lemma NextTurn<DB>(apply: (DB, Row) -> DB, db0: DB, order: seq<Job>, s: Sink<DB>, left: seq<Assigned>)
    requires Inv(apply, db0, order, s, left)
    ensures Inv(apply, db0, order, s.(next := (s.next + 1) % |s.workers|), left)
  {
  }

  // ----- Executing -----

  lemma FlushShare(w: Worker, mine: seq<Job>, announced: bool)
    requires WorkerOk(w, mine, announced) && |w.buffer| <= |mine|
    ensures WorkerOk(w.(buffer := []), mine[|w.buffer|..], announced)
  {
    assert mine[|w.buffer|..] == DataOf(w.chan) == Pending(w.(buffer := []));
  }

  lemma FlushWorker(workers: seq<Worker>, phase: Phase, left: seq<Assigned>, left': seq<Assigned>, i: nat)
    requires WorkersOk(workers, phase, left) && i < |workers| && |workers[i].buffer| <= |Mine(left, i)|
    requires SameBut(left, left', i, |workers[i].buffer|)
    ensures var workers' := workers[i := workers[i].(buffer := [])];
            WorkersOk(workers', phase, left') && |Marked(workers')| == |Marked(workers)|
  {
    var w := workers[i];
    assert Served(workers, phase, left, i);
    FlushShare(w, Mine(left, i), Announced(phase, i));
    ChangeWorker(workers, phase, left, i, w.(buffer := []), phase, left');
    MarkWorker(workers, i, w.(buffer := []));
  }

  lemma FlushOk<DB(!new)>(apply: (DB, Row) -> DB, db0: DB, order: seq<Job>, s: Sink<DB>, left: seq<Assigned>, i: nat)
    returns (left': seq<Assigned>)
    requires KeysDecide(apply, order) && Inv(apply, db0, order, s, left) && i < |s.workers|
    ensures Inv(apply, db0, order, Flushed(apply, s, i), left')
  {
    var buffer := s.workers[i].buffer;
    LeftIsApart(apply, order, s, left);
    assert Served(s.workers, s.phase, left, i);
    assert Mine(left, i)[..|buffer|] == buffer;
    left' := PullMany(apply, s.db, left, i, |buffer|);
    BatchIsSerial(apply, s.db, buffer);
    FlushWorker(s.workers, s.phase, left, left', i);
    FlushLeft(order, s, Flushed(apply, s, i), left, left');
  }

  lemma FlushLeft<DB>(order: seq<Job>, s: Sink<DB>, s': Sink<DB>, left: seq<Assigned>, left': seq<Assigned>)
    requires LeftOk(order, s, left) && forall a :: a in left' ==> a in left
    requires |s'.workers| == |s.workers| && s'.relations == s.relations
    ensures LeftOk(order, s', left')
    ensures left == [] ==> left' == []
  {
    assert left' != [] ==> left'[0] in left';
  }

  /** A step inside the workers that leaves everything to execute as it is. */
  lemma ReplaceWorkers<DB>(apply: (DB, Row) -> DB, db0: DB, order: seq<Job>, s: Sink<DB>, left: seq<Assigned>,
                           workers: seq<Worker>)
    requires Inv(apply, db0, order, s, left)
    requires |workers| == |s.workers| && WorkersOk(workers, s.phase, left)
    ensures Inv(apply, db0, order, s.(workers := workers, wg := |Marked(workers)|), left)
  {
  }

  /** Taking a transaction from the channel into the buffer. */
  lemma TakeWorker(workers: seq<Worker>, phase: Phase, left: seq<Assigned>, i: nat)
    requires WorkersOk(workers, phase, left) && i < |workers| && workers[i].chan != [] && workers[i].chan[0].Data?
    ensures var w := workers[i];
            var job := w.chan[0].job;
            var workers' := workers[i := Worker(w.chan[1..], w.buffer + [job], job.replicaID)];
            WorkersOk(workers', phase, left) && |Marked(workers')| == |Marked(workers)|
  {
    var w := workers[i];
    var job := w.chan[0].job;
    var w' := Worker(w.chan[1..], w.buffer + [job], job.replicaID);
    assert Served(workers, phase, left, i);
    assert Pending(w') == Pending(w);
    assert Finish in w.chan <==> Finish in w'.chan;
    ChangeWorker(workers, phase, left, i, w', phase, left);
    MarkWorker(workers, i, w');
  }

  /** Passing the barrier mark with an empty buffer. */
  lemma PassWorker(workers: seq<Worker>, phase: Phase, left: seq<Assigned>, i: nat)
    requires WorkersOk(workers, phase, left) && i < |workers|
    requires workers[i].buffer == [] && workers[i].chan != [] && workers[i].chan[0].Finish?
    ensures var workers' := workers[i := workers[i].(chan := workers[i].chan[1..])];
            WorkersOk(workers', phase, left) && |Marked(workers')| == |Marked(workers)| - 1
  {
    var w := workers[i];
    var w' := w.(chan := w.chan[1..]);
    assert Served(workers, phase, left, i);
    assert w.chan[0] in w.chan;
    MarkIsAlone(w.chan);
    ChangeWorker(workers, phase, left, i, w', phase, left);
    MarkWorker(workers, i, w');
  }

  lemma MarkIsAlone(chan: seq<Item>)
    requires chan != [] && chan[0].Finish? && Finish !in chan[..|chan| - 1]
    ensures chan == [Finish]
  {
  }

  lemma ReceiveOk<DB(!new)>(apply: (DB, Row) -> DB, db0: DB, order: seq<Job>, s: Sink<DB>, left: seq<Assigned>, i: nat,
                            maxTxnRow: nat)
    returns (left': seq<Assigned>)
    requires KeysDecide(apply, order) && Inv(apply, db0, order, s, left) && Enabled(s, Receive(i))
    ensures Inv(apply, db0, order, Received(apply, s, i, maxTxnRow), left')
  {
    var w := s.workers[i];
    var t := s;
    left' := left;
    if w.chan[0].Finish? || MustFlush(w, w.chan[0].job, maxTxnRow) {
      left' := FlushOk(apply, db0, order, s, left, i);
      t := Flushed(apply, s, i);
    }
    var s' := Received(apply, s, i, maxTxnRow);
    if w.chan[0].Data? {
      TakeWorker(t.workers, t.phase, left', i);
    } else {
      PassWorker(t.workers, t.phase, left', i);
    }
    assert t.workers[i := s'.workers[i]] == s'.workers;
    ReplaceWorkers(apply, db0, order, t, left', s'.workers);
  }

  // ----- The barrier -----

  lemma BroadcastOk<DB>(apply: (DB, Row) -> DB, db0: DB, order: seq<Job>, s: Sink<DB>, left: seq<Assigned>,
                        maxTxnRow: nat)
    requires Inv(apply, db0, order, s, left) && Enabled(s, Broadcast)
    ensures Inv(apply, db0, order, Step(apply, s, Broadcast, maxTxnRow), left)
  {
    var k := s.phase.next;
    var w := s.workers[k];
    var w' := w.(chan := w.chan + [Finish]);
    assert Served(s.workers, s.phase, left, k);
    BroadcastWorker(s.workers, k, left);
    MarkWorker(s.workers, k, w');
  }

  lemma BroadcastWorker(workers: seq<Worker>, k: nat, left: seq<Assigned>)
    requires WorkersOk(workers, Broadcasting(k), left) && k < |workers|
    ensures var workers' := workers[k := workers[k].(chan := workers[k].chan + [Finish])];
            WorkersOk(workers', if k + 1 < |workers| then Broadcasting(k + 1) else Waiting, left)
  {
    var w := workers[k];
    var w' := w.(chan := w.chan + [Finish]);
    assert w'.chan[..|w.chan|] == w.chan;
    DataOfSnoc(w.chan, Finish);
    var workers', phase' := workers[k := w'], if k + 1 < |workers| then Broadcasting(k + 1) else Waiting;
    forall j | 0 <= j < |workers| ensures Served(workers', phase', left, j) {
      assert Served(workers, Broadcasting(k), left, j);
    }
  }

  /** When the last mark is passed, nothing is left to execute. */
  lemma NothingLeft(workers: seq<Worker>, left: seq<Assigned>)
    requires WorkersOk(workers, Waiting, left) && |Marked(workers)| == 0
    requires forall a :: a in left ==> a.worker < |workers|
    ensures left == []
    ensures WorkersOk(workers, Dispatching, []) && WorkersOk(workers, Stopped, [])
  {
    forall i | 0 <= i < |workers| ensures Finish !in workers[i].chan && workers[i].chan == [] && Mine(left, i) == [] {
      Drained(workers, left, i);
    }
    if left != [] {
      assert left[0] in left;
      NoneMine(left, left[0].worker);
    }
    forall i | 0 <= i < |workers| ensures Served(workers, Dispatching, [], i) && Served(workers, Stopped, [], i) {
      assert Served(workers, Waiting, left, i);
    }
  }

  lemma Drained(workers: seq<Worker>, left: seq<Assigned>, i: nat)
    requires WorkersOk(workers, Waiting, left) && |Marked(workers)| == 0 && i < |workers|
    ensures workers[i].chan == [] && workers[i].buffer == [] && Mine(left, i) == []
  {
    assert Served(workers, Waiting, left, i);
    assert i !in Marked(workers);
  }

  /** Past the barrier, with nothing left, the conflicts can be forgotten. */
  lemma ForgetOk<DB>(apply: (DB, Row) -> DB, db0: DB, order: seq<Job>, s: Sink<DB>)
    requires Inv(apply, db0, order, s, []) && WorkersOk(s.workers, Dispatching, []) && WorkersOk(s.workers, Stopped, [])
    ensures Inv(apply, db0, order, s.(relations := map[], phase := Dispatching), [])
    ensures s.todo == [] ==> Inv(apply, db0, order, s.(relations := map[], phase := Stopped), [])
  {
  }

  lemma ResumeOk<DB>(apply: (DB, Row) -> DB, db0: DB, order: seq<Job>, s: Sink<DB>, left: seq<Assigned>)
    returns (left': seq<Assigned>)
    requires Inv(apply, db0, order, s, left) && Enabled(s, Resume)
    ensures Inv(apply, db0, order, Resumed(s), left')
  {
    NothingLeft(s.workers, left);
    ForgetOk(apply, db0, order, s);
    left' := [];
    if s.todo != [] {
      var r := s.(relations := map[], phase := Dispatching);
      left' := SendRoundRobinOk(apply, db0, order, r, []);
    }
  }

  // ----- Dispatching -----

  lemma ToBarrier(workers: seq<Worker>, left: seq<Assigned>)
    requires WorkersOk(workers, Dispatching, left)
    ensures WorkersOk(workers, Broadcasting(0), left)
  {
    forall i | 0 <= i < |workers| ensures Served(workers, Broadcasting(0), left, i) {
      assert Served(workers, Dispatching, left, i);
    }
  }

  lemma DispatchOk<DB>(apply: (DB, Row) -> DB, db0: DB, order: seq<Job>, s: Sink<DB>, left: seq<Assigned>)
    returns (left': seq<Assigned>)
    requires Inv(apply, db0, order, s, left) && Enabled(s, Dispatch)
    ensures Inv(apply, db0, order, Dispatched(s), left')
  {
    left' := left;
    if s.todo == [] || Clash(s.relations, s.todo[0].keys) {
      ToBarrier(s.workers, left);
    } else if Free(s.relations, s.todo[0].keys) {
      left' := SendRoundRobinOk(apply, db0, order, s, left);
    } else {
      var idx := RouteOf(s);
      SendOk(apply, db0, order, s, left, idx);
      left' := left + [Assigned(s.todo[0], idx)];
    }
  }

  /** Without a clash, the worker chosen is the one that every known key went to. */
  lemma RouteOf<DB>(s: Sink<DB>) returns (idx: nat)
    requires ShapeOk(s) && s.todo != [] && !Clash(s.relations, s.todo[0].keys) && !Free(s.relations, s.todo[0].keys)
    ensures idx < |s.workers| && Dispatched(s) == Sent(s, idx)
    ensures forall k :: k in s.todo[0].keys && k in s.relations ==> s.relations[k] == idx
  {
    var k :| k in s.todo[0].keys && k in s.relations && Dispatched(s) == Sent(s, s.relations[k]);
    idx := s.relations[k];
  }

  lemma StepOk<DB(!new)>(apply: (DB, Row) -> DB, db0: DB, order: seq<Job>, s: Sink<DB>, left: seq<Assigned>, e: Event,
                         maxTxnRow: nat)
    returns (left': seq<Assigned>)
    requires KeysDecide(apply, order) && Inv(apply, db0, order, s, left) && Enabled(s, e)
    ensures Inv(apply, db0, order, Step(apply, s, e, maxTxnRow), left')
  {
    match e
    case Dispatch => left' := DispatchOk(apply, db0, order, s, left);
    case Broadcast => BroadcastOk(apply, db0, order, s, left, maxTxnRow); left' := left;
    case Resume => left' := ResumeOk(apply, db0, order, s, left);
    case Receive(i) => left' := ReceiveOk(apply, db0, order, s, left, i, maxTxnRow);
    case Notified(i) => left' := FlushOk(apply, db0, order, s, left, i);
  }

  // ----- Runs -----

  ghost predicate Moves<DB>(apply: (DB, Row) -> DB, s: Sink<DB>, e: Event, s': Sink<DB>, maxTxnRow: nat) {
    ShapeOk(s) && Enabled(s, e) && s' == Step(apply, s, e, maxTxnRow)
  }

  /** The states passed through by any interleaving of dispatcher and workers. */
  ghost predicate IsRun<DB>(apply: (DB, Row) -> DB, states: seq<Sink<DB>>, events: seq<Event>, maxTxnRow: nat) {
    && |states| == |events| + 1
    && forall i {:trigger events[i]} :: 0 <= i < |events| ==>
         Moves(apply, states[i], events[i], states[i + 1], maxTxnRow)
  }

  lemma {:induction false} RunKeepsInv<DB(!new)>(apply: (DB, Row) -> DB, db0: DB, order: seq<Job>,
                                                 states: seq<Sink<DB>>,
                                                 events: seq<Event>, maxTxnRow: nat, k: nat)
    returns (left: seq<Assigned>)
    requires KeysDecide(apply, order) && IsRun(apply, states, events, maxTxnRow) && k <= |events|
    requires |states[0].workers| > 0 && states[0] == Start(db0, order, |states[0].workers|)
    ensures Inv(apply, db0, order, states[k], left)
  {
    if k == 0 {
      InitInv(apply, db0, order, |states[0].workers|);
      left := [];
    } else {
      var before := RunKeepsInv(apply, db0, order, states, events, maxTxnRow, k - 1);
      assert Moves(apply, states[k - 1], events[k - 1], states[k - 1 + 1], maxTxnRow);
      left := StepOk(apply, db0, order, states[k - 1], before, events[k - 1], maxTxnRow);
    }
  }

  /** Transactions waiting with different workers have no key in common. */
  ghost predicate PendingApart(workers: seq<Worker>) {
    forall i, j, t, u ::
      && 0 <= i < |workers| && 0 <= j < |workers| && i != j
      && t in Pending(workers[i]) && u in Pending(workers[j]) ==>
        t.keys !! u.keys
  }

  lemma InvImpliesApart<DB>(apply: (DB, Row) -> DB, db0: DB, order: seq<Job>, s: Sink<DB>, left: seq<Assigned>)
    requires Inv(apply, db0, order, s, left)
    ensures PendingApart(s.workers)
  {
    forall i, j, t, u |
      && 0 <= i < |s.workers| && 0 <= j < |s.workers| && i != j
      && t in Pending(s.workers[i]) && u in Pending(s.workers[j])
      ensures t.keys !! u.keys
    {
      assert Served(s.workers, s.phase, left, i) && Served(s.workers, s.phase, left, j);
      MineIsLeft(left, i, t);
      MineIsLeft(left, j, u);
      assert Remembered(s.relations, Assigned(t, i)) && Remembered(s.relations, Assigned(u, j));
    }
  }

  /** Something other than a notification can always happen until the dispatcher is through. */
  ghost predicate CanGoOn<DB>(s: Sink<DB>) {
    exists e: Event :: !e.Notified? && Enabled(s, e)
  }

  lemma InvImpliesLive<DB>(apply: (DB, Row) -> DB, db0: DB, order: seq<Job>, s: Sink<DB>, left: seq<Assigned>)
    requires Inv(apply, db0, order, s, left) && !s.phase.Stopped?
    ensures CanGoOn(s)
  {
    match s.phase
    case Dispatching => assert Enabled(s, Dispatch);
    case Broadcasting(_) => assert Enabled(s, Broadcast);
    case Waiting =>
      if s.wg == 0 {
        assert Enabled(s, Resume);
      } else {
        var i :| i in Marked(s.workers);
        assert Enabled(s, Receive(i));
      }
  }

  /** In every interleaving, when the dispatcher is through the downstream state is what
      executing the transactions one at a time gives; until then it is never stuck, no
      worker number or barrier count is out of range, and transactions that share a key
      only ever wait in the same queue. */
  lemma ParallelIsSerial<DB(!new)>(apply: (DB, Row) -> DB, db0: DB, order: seq<Job>, states: seq<Sink<DB>>,
                                   events: seq<Event>, maxTxnRow: nat)
    requires KeysDecide(apply, order) && IsRun(apply, states, events, maxTxnRow)
    requires |states[0].workers| > 0 && states[0] == Start(db0, order, |states[0].workers|)
    ensures var s := states[|events|];
            && (s.phase.Stopped? ==> s.db == Serial(apply, db0, order))
            && (!s.phase.Stopped? ==> CanGoOn(s))
            && ShapeOk(s) && s.wg >= 0 && PendingApart(s.workers)
  {
    var s := states[|events|];
    var left := RunKeepsInv(apply, db0, order, states, events, maxTxnRow, |events|);
    InvImpliesApart(apply, db0, order, s, left);
    if !s.phase.Stopped? {
      InvImpliesLive(apply, db0, order, s, left);
    }
  }
}
