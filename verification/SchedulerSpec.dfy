/** Data model and atomic actions of the table scheduling protocol: the owner's
    dispatcher on one side, the processors' agents on the other. */
module SchedulerTypes {
  // Captures and tables are only ever compared, so numbers stand for their IDs.
  type CaptureID = nat
  type TableID = nat

  const MAX_UINT64: nat := 0xFFFF_FFFF_FFFF_FFFF

  type Ts = x: nat | x <= MAX_UINT64

  datatype TableStatus = AddingTable | RemovingTable | RunningTable
  datatype TableRecord = TableRecord(captureID: CaptureID, status: TableStatus)

  datatype Op = Op(tableID: TableID, isDelete: bool)

  // Owner to processor.
  datatype OwnerMsg = Announce | Dispatch(op: Op)

  // Processor to owner.
  datatype AgentMsg =
    | Sync(running: set<TableID>, adding: set<TableID>, removing: set<TableID>)
    | Finish(tableID: TableID)

  /** The map that sends every key of the set to the same value. */
  ghost function Filled<K, V>(keys: set<K>, v: V): (m: map<K, V>)
    ensures m.Keys == keys
    ensures forall k :: k in keys ==> m[k] == v
  {
    if keys == {} then map[]
    else
      var k :| k in keys;
      Filled(keys - {k}, v)[k := v]
  }

  /** A message handler either completes with a new state or hits a panic. */
  datatype Outcome<+T> = Done(value: T) | Panic
}

/** The dispatcher as a value, and the atomic actions its methods are made of. */
module DispatcherSpec {
  import opened SchedulerTypes

  datatype SyncStatus = Uninitialized | SyncSent | SyncFinished
  datatype CaptureStatus = CaptureStatus(sync: SyncStatus, checkpointTs: Ts, resolvedTs: Ts)

  // `removed` says that the request to take the table off its old capture was sent.
  datatype MoveJob = MoveJob(target: CaptureID, removed: bool)

  datatype Dispatcher = Dispatcher(
    captures: set<CaptureID>,
    status: map<CaptureID, CaptureStatus>,
    tables: map<TableID, TableRecord>,
    jobs: map<TableID, MoveJob>)

  const INIT: Dispatcher := Dispatcher({}, map[], map[], map[])

  datatype OwnerAction =
    | Refresh(captures: set<CaptureID>, ts: Ts)
    | SendAnnounce(captureID: CaptureID)
    | Deschedule(captureID: CaptureID)
    | DispatchAdd(tableID: TableID, target: CaptureID)
    | DispatchRemove(tableID: TableID)
    | RequestMove(tableID: TableID, target: CaptureID)
    | DispatchMove(tableID: TableID)
    | AbandonMove(tableID: TableID)

  predicate AllSynced(d: Dispatcher) {
    && d.status.Keys == d.captures
    && forall c :: c in d.status ==> d.status[c].sync.SyncFinished?
  }

  predicate IsRunning(d: Dispatcher, t: TableID) {
    t in d.tables && d.tables[t].status.RunningTable?
  }

  predicate MoveReady(d: Dispatcher, t: TableID) {
    t in d.jobs && d.jobs[t].removed
  }

  /** When the dispatcher may take an action. */
  predicate Enabled(d: Dispatcher, a: OwnerAction) {
    match a
    case Refresh(_, _) => true
    case SendAnnounce(c) => c in d.status && d.status[c].sync.Uninitialized?
    case Deschedule(c) => c !in d.captures
    case DispatchAdd(t, target) =>
      && AllSynced(d)
      && t !in d.tables
      && (if MoveReady(d, t) then target == d.jobs[t].target else target in d.captures)
    case DispatchRemove(t) => AllSynced(d) && IsRunning(d, t)
    case RequestMove(t, _) => t !in d.jobs
    case DispatchMove(t) =>
      && AllSynced(d)
      && IsRunning(d, t)
      && t in d.jobs && !d.jobs[t].removed && d.jobs[t].target in d.captures
    case AbandonMove(t) => t in d.jobs && !d.jobs[t].removed
  }

  function TablesOn(tables: map<TableID, TableRecord>, c: CaptureID): set<TableID> {
    set t | t in tables && tables[t].captureID == c
  }

  function WithoutCapture(tables: map<TableID, TableRecord>, c: CaptureID): map<TableID, TableRecord> {
    tables - TablesOn(tables, c)
  }

  function JobsTo(jobs: map<TableID, MoveJob>, c: CaptureID): set<TableID> {
    set t | t in jobs && jobs[t].target == c
  }

  /** Captures that left are forgotten; those that came start out uninitialized. */
  ghost function Refreshed(status: map<CaptureID, CaptureStatus>, captures: set<CaptureID>, ts: Ts)
    : map<CaptureID, CaptureStatus>
  {
    status - (status.Keys - captures) + Filled(captures - status.Keys, CaptureStatus(Uninitialized, ts, ts))
  }

  ghost function Step(d: Dispatcher, a: OwnerAction): Dispatcher
    requires Enabled(d, a)
  {
    match a
    case Refresh(captures, ts) => d.(captures := captures, status := Refreshed(d.status, captures, ts))
    case SendAnnounce(c) => d.(status := d.status[c := d.status[c].(sync := SyncSent)])
    case Deschedule(c) =>
      d.(tables := WithoutCapture(d.tables, c), jobs := d.jobs - JobsTo(d.jobs, c))
    case DispatchAdd(t, target) =>
      d.(tables := d.tables[t := TableRecord(target, AddingTable)],
         jobs := if MoveReady(d, t) then d.jobs - {t} else d.jobs)
    case DispatchRemove(t) => d.(tables := d.tables[t := d.tables[t].(status := RemovingTable)])
    case RequestMove(t, target) => d.(jobs := d.jobs[t := MoveJob(target, false)])
    case DispatchMove(t) =>
      d.(tables := d.tables[t := d.tables[t].(status := RemovingTable)],
         jobs := d.jobs[t := d.jobs[t].(removed := true)])
    case AbandonMove(t) => d.(jobs := d.jobs - {t})
  }

  /** `d'` is `d` with the capture list taken in, said capture by capture. */
  ghost predicate Listed(d: Dispatcher, captures: set<CaptureID>, ts: Ts, d': Dispatcher) {
    && d'.captures == captures && d'.status.Keys == captures
    && d'.tables == d.tables && d'.jobs == d.jobs
    && forall c :: c in captures ==>
         d'.status[c] == if c in d.status then d.status[c] else CaptureStatus(Uninitialized, ts, ts)
  }

  lemma ListedIsRefresh(d: Dispatcher, captures: set<CaptureID>, ts: Ts, d': Dispatcher)
    ensures Listed(d, captures, ts, d') <==> d' == Step(d, Refresh(captures, ts))
  {
    if Listed(d, captures, ts, d') {
      assert d'.status == Refreshed(d.status, captures, ts);
    }
  }

  datatype Envelope = Envelope(to: CaptureID, msg: OwnerMsg)

  /** The message an action puts on the wire, if any. */
  function Sends(d: Dispatcher, a: OwnerAction): seq<Envelope>
    requires Enabled(d, a)
  {
    match a
    case SendAnnounce(c) => [Envelope(c, Announce)]
    case DispatchAdd(t, target) => [Envelope(target, Dispatch(Op(t, false)))]
    case DispatchRemove(t) => [Envelope(d.tables[t].captureID, Dispatch(Op(t, true)))]
    case DispatchMove(t) => [Envelope(d.tables[t].captureID, Dispatch(Op(t, true)))]
    case _ => []
  }

  /** A step inside a tick: any action but taking in a new capture list. */
  ghost predicate Moves(d: Dispatcher, a: OwnerAction, d': Dispatcher) {
    Enabled(d, a) && !a.Refresh? && Step(d, a) == d'
  }

  /** The states passed through by a run of actions, each enabled where it is taken. */
  ghost predicate Path(states: seq<Dispatcher>, log: seq<OwnerAction>) {
    && |states| == |log| + 1
    && forall i {:trigger Moves(states[i], log[i], states[i + 1])} :: 0 <= i < |log| ==>
         Moves(states[i], log[i], states[i + 1])
  }

  lemma PathAt(states: seq<Dispatcher>, log: seq<OwnerAction>, i: nat)
    requires Path(states, log) && i < |log|
    ensures Moves(states[i], log[i], states[i + 1])
  {
  }

  lemma PathSnoc(states: seq<Dispatcher>, log: seq<OwnerAction>, a: OwnerAction, d: Dispatcher)
    requires Path(states, log) && Moves(states[|log|], a, d)
    ensures Path(states + [d], log + [a])
  {
    var states', log' := states + [d], log + [a];
    forall i | 0 <= i < |log'| ensures Moves(states'[i], log'[i], states'[i + 1]) {
      assert i < |log| ==> Moves(states[i], log[i], states[i + 1]);
    }
  }

  lemma PathTail(states: seq<Dispatcher>, log: seq<OwnerAction>)
    requires Path(states, log) && log != []
    ensures Moves(states[0], log[0], states[1]) && Path(states[1..], log[1..])
  {
    PathAt(states, log, 0);
    forall i | 0 <= i < |log| - 1 ensures Moves(states[1..][i], log[1..][i], states[1..][i + 1]) {
      PathAt(states, log, i + 1);
    }
  }

  /** The messages sent on the way. */
  ghost function MailOf(states: seq<Dispatcher>, log: seq<OwnerAction>): seq<Envelope>
    decreases |log|
  {
    if log == [] || states == [] || !Enabled(states[0], log[0]) then []
    else Sends(states[0], log[0]) + MailOf(states[1..], log[1..])
  }

  lemma {:induction false} MailSnoc(states: seq<Dispatcher>, log: seq<OwnerAction>, a: OwnerAction, last: Dispatcher)
    requires Path(states, log) && Moves(states[|log|], a, last)
    ensures MailOf(states + [last], log + [a]) == MailOf(states, log) + Sends(states[|log|], a)
    decreases |log|
  {
    assert (states + [last])[1..] == states[1..] + [last];
    if log == [] {
      assert [a][1..] == [];
    } else {
      assert (log + [a])[1..] == log[1..] + [a];
      PathTail(states, log);
      MailSnoc(states[1..], log[1..], a, last);
    }
  }

  /** The mail tells the capture of every table that it was given or is to be rid of. */
  ghost predicate Told(before: Dispatcher, after: Dispatcher, mail: seq<Envelope>) {
    && (forall t :: t in after.tables && (t in before.tables ==> before.tables[t] != after.tables[t]) ==>
          match after.tables[t].status
          case AddingTable => Envelope(after.tables[t].captureID, Dispatch(Op(t, false))) in mail
          case RemovingTable => Envelope(after.tables[t].captureID, Dispatch(Op(t, true))) in mail
          case RunningTable => false)
    && (forall c :: c in after.status && (c in before.status ==> before.status[c] != after.status[c]) ==>
          after.status[c].sync.SyncSent? && Envelope(c, Announce) in mail)
  }

  lemma ToldOnce(d: Dispatcher, a: OwnerAction, d': Dispatcher)
    requires Moves(d, a, d')
    ensures Told(d, d', Sends(d, a))
  {
  }

  lemma ToldAgain(d: Dispatcher, d': Dispatcher, d'': Dispatcher, mail: seq<Envelope>, more: seq<Envelope>)
    requires Told(d, d', mail) && Told(d', d'', more)
    ensures Told(d, d'', mail + more)
  {
  }

  /** Whatever a tick changes in its records, it has told the capture concerned. */
  lemma {:induction false} ChangesAreTold(states: seq<Dispatcher>, log: seq<OwnerAction>)
    requires Path(states, log)
    ensures Told(states[0], states[|log|], MailOf(states, log))
    decreases |log|
  {
    if log != [] {
      PathTail(states, log);
      ChangesAreTold(states[1..], log[1..]);
      ToldOnce(states[0], log[0], states[1]);
      ToldAgain(states[0], states[1], states[|log|], Sends(states[0], log[0]), MailOf(states[1..], log[1..]));
    }
  }

  // ----- Handlers for messages from processors -----

  function OnFinish(d: Dispatcher, c: CaptureID, t: TableID): Outcome<Dispatcher> {
    if c !in d.captures || t !in d.tables then Done(d)
    else if d.tables[t].captureID != c then Panic
    else match d.tables[t].status
      case AddingTable => Done(d.(tables := d.tables[t := d.tables[t].(status := RunningTable)]))
      case RemovingTable => Done(d.(tables := d.tables - {t}))
      case RunningTable => Panic
  }

  predicate PairwiseDisjoint(a: set<TableID>, b: set<TableID>, c: set<TableID>) {
    a !! b && a !! c && b !! c
  }

  /** The records a Sync message stands for. */
  ghost function SyncRecords(c: CaptureID, running: set<TableID>, adding: set<TableID>, removing: set<TableID>)
    : map<TableID, TableRecord>
  {
    Filled(adding, TableRecord(c, AddingTable))
    + Filled(running, TableRecord(c, RunningTable))
    + Filled(removing, TableRecord(c, RemovingTable))
  }

  ghost function OnSync(d: Dispatcher, c: CaptureID, running: set<TableID>, adding: set<TableID>,
                        removing: set<TableID>)
    : Outcome<Dispatcher>
  {
    var rest := WithoutCapture(d.tables, c);
    if c !in d.status then Done(d.(tables := rest))
    else if PairwiseDisjoint(running, adding, removing)
         && (forall t :: t in running + adding + removing ==> t !in rest) then
      Done(d.(tables := rest + SyncRecords(c, running, adding, removing),
              status := d.status[c := d.status[c].(sync := SyncFinished)]))
    else Panic
  }

  ghost function OnMessage(d: Dispatcher, c: CaptureID, m: AgentMsg): Outcome<Dispatcher> {
    match m
    case Sync(running, adding, removing) => OnSync(d, c, running, adding, removing)
    case Finish(t) => OnFinish(d, c, t)
  }
}

/** The agent as a value, and the atomic actions its methods are made of. */
module AgentSpec {
  import opened SchedulerTypes

  datatype OpStatus = Received | Processed | Finished
  datatype AgentOp = AgentOp(isDelete: bool, status: OpStatus)

  /** `ownerRev` is the newest owner revision heard of; `target` is the revision
      of the owner that messages are sent to (0: none known), which lags behind
      until the next tick; `exec` is what the table executor holds. */
  datatype Agent = Agent(
    ownerRev: nat,
    ownerHasChanged: bool,
    target: nat,
    needSync: bool,
    pending: seq<Op>,
    ops: map<TableID, AgentOp>,
    exec: set<TableID>)

  const INIT: Agent := Agent(0, false, 0, true, [], map[], {})

  datatype AgentAction =
    | SwitchOwner
    | SendSync
    | TakePending
    | Add(tableID: TableID)
    | Remove(tableID: TableID)
    | AddFinished(tableID: TableID)
    | RemoveFinished(tableID: TableID)
    | SendFinish(tableID: TableID)

  predicate HasOp(a: Agent, t: TableID, isDelete: bool, status: OpStatus) {
    t in a.ops && a.ops[t] == AgentOp(isDelete, status)
  }

  /** Where a tick would send to: it switches owner before it sends. */
  function Target(a: Agent): nat {
    if a.ownerHasChanged then a.ownerRev else a.target
  }

  /** No table is named twice among the operations to take over and those under way. */
  predicate NoDuplicates(pending: seq<Op>, ops: map<TableID, AgentOp>) {
    && (forall i, j :: 0 <= i < j < |pending| ==> pending[i].tableID != pending[j].tableID)
    && (forall i :: 0 <= i < |pending| ==> pending[i].tableID !in ops)
  }

  /** A tick sends its Sync, when one is due, before anything else to that owner. */
  predicate SyncedWithTarget(a: Agent) {
    a.needSync ==> a.ownerHasChanged
  }

  predicate Enabled(a: Agent, act: AgentAction) {
    match act
    case SwitchOwner => true
    case SendSync => a.needSync && Target(a) > 0
    case TakePending => NoDuplicates(a.pending, a.ops)
    case Add(t) => HasOp(a, t, false, Received)
    case Remove(t) => HasOp(a, t, true, Received)
    case AddFinished(t) => HasOp(a, t, false, Processed)
    case RemoveFinished(t) => HasOp(a, t, true, Processed)
    case SendFinish(t) =>
      t in a.ops && a.ops[t].status.Finished? && a.target > 0 && SyncedWithTarget(a)
  }

  function Taken(pending: seq<Op>): map<TableID, AgentOp> {
    if pending == [] then map[]
    else
      var op := pending[|pending| - 1];
      Taken(pending[..|pending| - 1])[op.tableID := AgentOp(op.isDelete, Received)]
  }

  lemma TakenKeys(p: seq<Op>)
    ensures forall t :: t in Taken(p) <==> exists j :: 0 <= j < |p| && p[j].tableID == t
  {
  }

  function WithStatus(a: Agent, t: TableID, status: OpStatus): Agent
    requires t in a.ops
  {
    a.(ops := a.ops[t := a.ops[t].(status := status)])
  }

  function Step(a: Agent, act: AgentAction): Agent
    requires Enabled(a, act)
  {
    match act
    case SwitchOwner => a.(target := Target(a), ownerHasChanged := false)
    case SendSync => a.(target := Target(a), ownerHasChanged := false, needSync := false)
    case TakePending => a.(pending := [], ops := a.ops + Taken(a.pending))
    case Add(t) => WithStatus(a, t, Processed).(exec := a.exec + {t})
    case Remove(t) => WithStatus(a, t, Processed)
    case AddFinished(t) => WithStatus(a, t, Finished)
    case RemoveFinished(t) => WithStatus(a, t, Finished).(exec := a.exec - {t})
    case SendFinish(t) => a.(ops := a.ops - {t})
  }

  function SyncOf(a: Agent): AgentMsg {
    Sync(a.exec - a.ops.Keys,
         set t | t in a.ops && !a.ops[t].isDelete,
         set t | t in a.ops && a.ops[t].isDelete)
  }

  datatype Report = Report(rev: nat, msg: AgentMsg)

  /** The message an action puts on the wire, with the owner revision it goes to. */
  function Sends(a: Agent, act: AgentAction): seq<Report>
    requires Enabled(a, act)
  {
    match act
    case SendSync => [Report(Target(a), SyncOf(a))]
    case SendFinish(t) => [Report(a.target, Finish(t))]
    case _ => []
  }

  ghost predicate Moves(a: Agent, act: AgentAction, a': Agent) {
    Enabled(a, act) && Step(a, act) == a'
  }

  /** The states passed through by a run of actions, each enabled where it is taken. */
  ghost predicate Path(states: seq<Agent>, log: seq<AgentAction>) {
    && |states| == |log| + 1
    && forall i {:trigger Moves(states[i], log[i], states[i + 1])} :: 0 <= i < |log| ==>
         Moves(states[i], log[i], states[i + 1])
  }

  lemma PathAt(states: seq<Agent>, log: seq<AgentAction>, i: nat)
    requires Path(states, log) && i < |log|
    ensures Moves(states[i], log[i], states[i + 1])
  {
  }

  lemma PathSnoc(states: seq<Agent>, log: seq<AgentAction>, act: AgentAction, a: Agent)
    requires Path(states, log) && Moves(states[|log|], act, a)
    ensures Path(states + [a], log + [act])
  {
    var states', log' := states + [a], log + [act];
    forall i | 0 <= i < |log'| ensures Moves(states'[i], log'[i], states'[i + 1]) {
      assert i < |log| ==> Moves(states[i], log[i], states[i + 1]);
    }
  }

  lemma PathTail(states: seq<Agent>, log: seq<AgentAction>)
    requires Path(states, log) && log != []
    ensures Moves(states[0], log[0], states[1]) && Path(states[1..], log[1..])
  {
    PathAt(states, log, 0);
    forall i | 0 <= i < |log| - 1 ensures Moves(states[1..][i], log[1..][i], states[1..][i + 1]) {
      PathAt(states, log, i + 1);
    }
  }

  /** The messages sent on the way. */
  ghost function MailOf(states: seq<Agent>, log: seq<AgentAction>): seq<Report>
    decreases |log|
  {
    if log == [] || states == [] || !Enabled(states[0], log[0]) then []
    else Sends(states[0], log[0]) + MailOf(states[1..], log[1..])
  }

  lemma {:induction false} MailSnoc(states: seq<Agent>, log: seq<AgentAction>, act: AgentAction, last: Agent)
    requires Path(states, log) && Moves(states[|log|], act, last)
    ensures MailOf(states + [last], log + [act]) == MailOf(states, log) + Sends(states[|log|], act)
    decreases |log|
  {
    assert (states + [last])[1..] == states[1..] + [last];
    if log == [] {
      assert [act][1..] == [];
    } else {
      assert (log + [act])[1..] == log[1..] + [act];
      PathTail(states, log);
      MailSnoc(states[1..], log[1..], act, last);
    }
  }

  // ----- Handlers for messages from owners -----

  /** Messages of an older revision are ignored; a newer revision resets the queue
      of operations that were not taken over yet. */
  function OnOwnerMsg(a: Agent, rev: nat, m: OwnerMsg): Agent {
    if rev < a.ownerRev then a
    else
      var b := if a.ownerRev < rev then a.(ownerRev := rev, ownerHasChanged := true, pending := []) else a;
      match m
      case Announce => b.(needSync := true)
      case Dispatch(op) => b.(pending := b.pending + [op])
  }
}
