/** The owner's dispatcher as the object whose fields its methods update. Every
    method is shown to move by the atomic actions of `DispatcherSpec` alone. */
module ScheduleDispatcher {
  import opened SchedulerTypes
  import opened DispatcherSpec
  import Balancer
  import Level = SchedulerLevel

  const CHECKPOINT_CANNOT_PROCEED: Ts := 0
  const CAPTURE_COUNT_UNINITIALIZED := -1

  function WithStatus(tables: map<TableID, TableRecord>, status: TableStatus): set<TableID> {
    set t | t in tables && tables[t].status == status
  }

  /** All tables are running, and there are `n` of them. */
  predicate AllNormal(tables: map<TableID, TableRecord>, n: nat) {
    && |WithStatus(tables, RunningTable)| == n
    && |WithStatus(tables, AddingTable)| == 0
    && |WithStatus(tables, RemovingTable)| == 0
  }

  lemma NormalMeansRunning(tables: map<TableID, TableRecord>, n: nat)
    requires AllNormal(tables, n)
    ensures |tables| == n
    ensures forall t :: t in tables ==> tables[t].status.RunningTable?
  {
    forall t | t in tables ensures tables[t].status.RunningTable? {
      assert t !in WithStatus(tables, AddingTable) && t !in WithStatus(tables, RemovingTable);
    }
    assert WithStatus(tables, RunningTable) == tables.Keys;
  }

  lemma SameSizeSubset(a: set<TableID>, b: set<TableID>)
    requires a <= b && |a| == |b|
    ensures a == b
  {
    assert b == a + (b - a);
    assert |b - a| == 0;
  }

  function Elements(s: seq<TableID>): set<TableID> {
    set t | t in s
  }

  predicate Distinct(s: seq<TableID>) {
    forall i, j :: 0 <= i < j < |s| ==> s[i] != s[j]
  }

  lemma ElementsAppend(s: seq<TableID>, t: TableID)
    ensures Elements(s + [t]) == Elements(s) + {t}
    ensures Distinct(s) && t !in Elements(s) ==> Distinct(s + [t])
  {
  }

  lemma DistinctSize(s: seq<TableID>)
    requires Distinct(s)
    ensures |Elements(s)| == |s|
  {
    if s != [] {
      var front, last := s[..|s| - 1], s[|s| - 1];
      DistinctSize(front);
      assert s == front + [last];
      ElementsAppend(front, last);
    }
  }

  function CheckpointOf(s: CaptureStatus): Ts { s.checkpointTs }

  function ResolvedOf(s: CaptureStatus): Ts { s.resolvedTs }

  /** `after` is `before` with the same new record for each of the tables. */
  ghost predicate Added(before: map<TableID, TableRecord>, ids: set<TableID>, rec: TableRecord,
                        after: map<TableID, TableRecord>) {
    && after.Keys == before.Keys + ids
    && forall t :: t in after ==> after[t] == if t in ids then rec else before[t]
  }

  /** The reports of one Sync clash with each other or with the records of other captures. */
  ghost predicate Clash(rest: map<TableID, TableRecord>, running: set<TableID>, adding: set<TableID>,
                        removing: set<TableID>) {
    !PairwiseDisjoint(running, adding, removing) || exists t :: t in running + adding + removing && t in rest
  }

  lemma ClashMeansPanic(d: Dispatcher, c: CaptureID, running: set<TableID>, adding: set<TableID>,
                        removing: set<TableID>)
    requires c in d.status
    ensures OnSync(d, c, running, adding, removing).Panic?
            <==> Clash(WithoutCapture(d.tables, c), running, adding, removing)
  {
  }

  lemma AddedThrice(c: CaptureID, m0: map<TableID, TableRecord>, m1: map<TableID, TableRecord>,
                    m2: map<TableID, TableRecord>,
                    m3: map<TableID, TableRecord>, running: set<TableID>, adding: set<TableID>, removing: set<TableID>)
    requires PairwiseDisjoint(running, adding, removing)
    requires Added(m0, adding, TableRecord(c, AddingTable), m1)
    requires Added(m1, running, TableRecord(c, RunningTable), m2)
    requires Added(m2, removing, TableRecord(c, RemovingTable), m3)
    ensures m3 == m0 + SyncRecords(c, running, adding, removing)
  {
  }

  /** `ts` is the least of the captures' last reports `f`, over the captures that have tables. */
  ghost predicate IsWatermark(ts: Ts, tables: map<TableID, TableRecord>, status: map<CaptureID, CaptureStatus>,
                              f: CaptureStatus -> Ts) {
    && (forall t :: t in tables && tables[t].captureID in status ==> ts <= f(status[tables[t].captureID]))
    && (ts == MAX_UINT64
        || exists t :: t in tables && tables[t].captureID in status && f(status[tables[t].captureID]) == ts)
  }

  /** All tables run on listed captures. */
  ghost predicate AllRunning(d: Dispatcher) {
    forall t :: t in d.tables ==> d.tables[t].status.RunningTable? && d.tables[t].captureID in d.captures
  }

  /** All of the tables to run do run, and these are the watermarks over their captures. */
  ghost predicate Steady(d: Dispatcher, currentTables: seq<TableID>, checkpoint: Ts, resolved: Ts) {
    && AllSynced(d)
    && |d.tables| == |currentTables|
    && AllRunning(d)
    && (Distinct(currentTables) ==> d.tables.Keys == Elements(currentTables))
    && IsWatermark(checkpoint, d.tables, d.status, CheckpointOf)
    && IsWatermark(resolved, d.tables, d.status, ResolvedOf)
  }

  /** The records on listed captures. */
  function Remaining(tables: map<TableID, TableRecord>, captures: set<CaptureID>): map<TableID, TableRecord> {
    tables - (set t | t in tables && tables[t].captureID !in captures)
  }

  predicate MoveWanted(jobs: map<TableID, MoveJob>, captures: set<CaptureID>, t: TableID) {
    t in jobs && !jobs[t].removed && jobs[t].target in captures
  }

  /** A manual move of the table can be started. */
  predicate MoveDue(d: Dispatcher, t: TableID) {
    t in d.tables && MoveWanted(d.jobs, d.captures, t)
  }

  ghost predicate Overloaded(tables: map<TableID, TableRecord>, captures: set<CaptureID>) {
    exists c :: c in captures && Balancer.Load(tables, c) > Balancer.CeilDiv(|tables|, |captures|)
  }

  /** Without the captures that are gone, just the tables that should run are there, and run. */
  ghost predicate Placed(d: Dispatcher, should: set<TableID>) {
    var left := Remaining(d.tables, d.captures);
    left.Keys == should && forall t :: t in left ==> left[t].status.RunningTable?
  }

  ghost predicate Unmoving(d: Dispatcher, rebalance: bool) {
    && (forall t {:trigger MoveDue(d, t)} :: !MoveDue(d, t))
    && (rebalance ==> !Overloaded(d.tables, d.captures))
  }

  predicate RebalanceDue(due: bool, lastCount: int, count: nat) {
    due || (lastCount != CAPTURE_COUNT_UNINITIALIZED && lastCount != count)
  }

  /** There is nothing to wait for and nothing to send. */
  ghost predicate Calm(d: Dispatcher, should: set<TableID>, rebalance: bool) {
    AllSynced(d) && Placed(d, should) && Unmoving(d.(tables := Remaining(d.tables, d.captures)), rebalance)
  }

  /** Some of the missing tables have come, to be added. */
  ghost predicate Came(before: map<TableID, TableRecord>, missing: set<TableID>, after: map<TableID, TableRecord>) {
    && before.Keys <= after.Keys <= before.Keys + missing
    && forall t :: t in after ==> if t in before then after[t] == before[t] else after[t].status.AddingTable?
  }

  /** Some of the superfluous tables are on their way out. */
  ghost predicate Leaving(before: map<TableID, TableRecord>, extra: set<TableID>, after: map<TableID, TableRecord>) {
    && after.Keys == before.Keys
    && forall t :: t in after ==>
         || after[t] == before[t]
         || (t in extra && before[t].status.RunningTable? && after[t] == before[t].(status := RemovingTable))
  }

  /** Missing tables may have come, to be added, and superfluous ones may be on their way out. */
  ghost predicate Applied(before: map<TableID, TableRecord>, should: set<TableID>, after: map<TableID, TableRecord>) {
    && before.Keys <= after.Keys
    && (forall t :: t in after && t !in before ==> t in should && after[t].status.AddingTable?)
    && (forall t :: t in before ==>
          || after[t] == before[t]
          || (t !in should && before[t].status.RunningTable? && after[t] == before[t].(status := RemovingTable)))
  }

  /** Every table to run has a record, if there is a capture for it, and no other table is left to run. */
  ghost predicate InLine(should: set<TableID>, captures: set<CaptureID>, tables: map<TableID, TableRecord>) {
    && (captures != {} ==> should <= tables.Keys)
    && forall t :: t in tables && t !in should ==> !tables[t].status.RunningTable?
  }

  /** Some tables are on their way out. */
  ghost predicate Eased(before: map<TableID, TableRecord>, after: map<TableID, TableRecord>) {
    && after.Keys == before.Keys
    && forall t :: t in after ==>
         after[t] == before[t] || (after[t] == before[t].(status := RemovingTable) && before[t].status.RunningTable?)
  }

  ghost predicate AllMovesStarted(d: Dispatcher, d': Dispatcher) {
    forall t {:trigger MoveDue(d, t)} :: MoveDue(d, t) ==> MoveStarted(d, d', t)
  }

  /** Every manual move that can be made has been started; if there was none, a due rebalance has been made. */
  ghost predicate Served(d: Dispatcher, d': Dispatcher, needRebalance: bool) {
    AllMovesStarted(d, d') && (Unmoving(d, false) ==> !needRebalance)
  }

  ghost predicate AllAnnounced(d: Dispatcher, d': Dispatcher, refused: set<Envelope>) {
    && d'.status.Keys == d.status.Keys == d.captures == d'.captures
    && forall c :: c in d.captures ==> d'.status[c] == Announced(d.status[c], c, refused)
  }

  /** Every capture not heard of yet has been sent its announcement. */
  ghost predicate Greeted(d: Dispatcher, d': Dispatcher, refused: set<Envelope>, outbox: seq<Envelope>) {
    forall c :: c in d'.captures && c in d.status && d.status[c].sync.Uninitialized? ==>
      || Envelope(c, Announce) in refused
      || (c in d'.status && d'.status[c].sync.SyncSent? && Envelope(c, Announce) in outbox)
  }

  lemma GreetedNow(d: Dispatcher, d': Dispatcher, refused: set<Envelope>, outbox: seq<Envelope>)
    requires AllAnnounced(d, d', refused) && Told(d, d', outbox)
    ensures Greeted(d, d', refused, outbox)
  {
  }

  /** The tick has done all there is to do once all captures have synced. */
  ghost predicate Obeyed(d: Dispatcher, currentTables: seq<TableID>, d': Dispatcher, outbox: seq<Envelope>,
                         needRebalance: bool) {
    var left, should := Remaining(d.tables, d.captures), Elements(currentTables);
    && Ordered(left, should, d.captures, d'.tables, outbox)
    && (Distinct(currentTables) && Placed(d, should) ==> Served(d.(tables := left), d', needRebalance))
  }

  lemma EasedOrNormal(before: map<TableID, TableRecord>, after: map<TableID, TableRecord>)
    requires Eased(before, after) && forall t :: t in before ==> before[t].status.RunningTable?
    ensures AllNormal(after, |after|) <==> after == before
  {
    if AllNormal(after, |after|) {
      NormalMeansRunning(after, |after|);
      assert after == before;
    }
    if after == before {
      RunningIsNormal(after);
    }
  }

  /** The captures of new tables have been told. */
  ghost predicate Asked(before: map<TableID, TableRecord>, after: map<TableID, TableRecord>, outbox: seq<Envelope>) {
    forall t :: t in after && t !in before ==> Envelope(after[t].captureID, Dispatch(Op(t, false))) in outbox
  }

  /** The captures of tables on their way out have been told. */
  ghost predicate Dismissed(before: map<TableID, TableRecord>, after: map<TableID, TableRecord>,
                            outbox: seq<Envelope>) {
    forall t :: t in after && t in before && after[t] != before[t] ==>
      Envelope(after[t].captureID, Dispatch(Op(t, true))) in outbox
  }

  /** Every missing table is being added, no superfluous one is left to run, and their captures have been told. */
  ghost predicate Ordered(left: map<TableID, TableRecord>, should: set<TableID>, captures: set<CaptureID>,
                          tables: map<TableID, TableRecord>, outbox: seq<Envelope>) {
    && (captures != {} ==> forall t :: t in should && t !in left ==>
          && t in tables && tables[t].status.AddingTable?
          && Envelope(tables[t].captureID, Dispatch(Op(t, false))) in outbox)
    && (forall t :: t in tables && t !in should ==> !tables[t].status.RunningTable?)
    && (forall t :: t in left && t !in should && left[t].status.RunningTable? ==>
          && t in tables && tables[t] == left[t].(status := RemovingTable)
          && Envelope(left[t].captureID, Dispatch(Op(t, true))) in outbox)
  }

  lemma NowOrdered(left: map<TableID, TableRecord>, should: set<TableID>, captures: set<CaptureID>,
                   tables: map<TableID, TableRecord>, outbox: seq<Envelope>)
    requires Applied(left, should, tables) && InLine(should, captures, tables)
    requires Asked(left, tables, outbox) && Dismissed(left, tables, outbox)
    ensures Ordered(left, should, captures, tables, outbox)
  {
  }

  /** When all tables run there was nothing to order. */
  lemma StillOrdered(left: map<TableID, TableRecord>, should: set<TableID>, captures: set<CaptureID>,
                     tables: map<TableID, TableRecord>, outbox: seq<Envelope>,
                     tables': map<TableID, TableRecord>, outbox': seq<Envelope>)
    requires Ordered(left, should, captures, tables, outbox)
    requires Eased(tables, tables') && forall t :: t in tables ==> tables[t].status.RunningTable?
    ensures Ordered(left, should, captures, tables', outbox')
  {
  }

  lemma SameStarts(d: Dispatcher, lost: set<CaptureID>, d1: Dispatcher, d2: Dispatcher)
    requires lost !! d.captures && d1 == d.(jobs := d.jobs - LostJobs(d.jobs, lost))
    requires AllMovesStarted(d1, d2)
    ensures AllMovesStarted(d, d2)
  {
    forall t | MoveDue(d, t) ensures MoveStarted(d, d2, t) {
      assert MoveDue(d1, t);
    }
  }

  lemma CameAndLeaving(before: map<TableID, TableRecord>, should: set<TableID>, mid: map<TableID, TableRecord>,
                       after: map<TableID, TableRecord>)
    requires Came(before, should - before.Keys, mid)
    requires after == mid || Leaving(mid, before.Keys - should, after)
    ensures Applied(before, should, after)
    ensures before.Keys == should ==> after == before
  {
  }

  ghost predicate MoveStarted(d: Dispatcher, d': Dispatcher, t: TableID) {
    && MoveDue(d, t) && t in d'.tables && d'.tables[t] == d.tables[t].(status := RemovingTable)
    && t in d'.jobs && d'.jobs[t] == d.jobs[t].(removed := true)
  }

  /** Moves have been started or given up, except those of the tables in `todo`. */
  ghost predicate MovesBegun(d: Dispatcher, todo: set<TableID>, tables: map<TableID, TableRecord>,
                             jobs: map<TableID, MoveJob>) {
    && todo <= jobs.Keys <= d.jobs.Keys && tables.Keys == d.tables.Keys
    && (forall t :: t in todo ==> jobs[t] == d.jobs[t])
    && (forall t :: t in tables && (t in todo || !MoveDue(d, t)) ==> tables[t] == d.tables[t])
    && (forall t :: t in jobs && t !in todo ==> jobs[t].removed)
    && (forall t {:trigger MoveDue(d, t)} :: t !in todo && MoveDue(d, t) ==>
          tables[t] == d.tables[t].(status := RemovingTable) && t in jobs && jobs[t] == d.jobs[t].(removed := true))
  }

  lemma OneMoveBegun(d: Dispatcher, todo: set<TableID>, tables: map<TableID, TableRecord>, jobs: map<TableID, MoveJob>,
                     t: TableID,
                     tables': map<TableID, TableRecord>, jobs': map<TableID, MoveJob>)
    requires MovesBegun(d, todo, tables, jobs) && t in todo
    requires if MoveDue(d, t) then
               && tables' == tables[t := tables[t].(status := RemovingTable)]
               && jobs' == jobs[t := jobs[t].(removed := true)]
             else tables' == tables && jobs' == if jobs[t].removed then jobs else jobs - {t}
    ensures MovesBegun(d, todo - {t}, tables', jobs')
  {
  }

  /** The tables in excess on each capture are marked for removal, and no others. */
  ghost predicate Rebalanced(tables: map<TableID, TableRecord>, captures: set<CaptureID>,
                             marked: map<TableID, TableRecord>) {
    captures != {} ==>
      exists victims {:trigger Balancer.Marks(tables, victims, marked)} ::
        && Balancer.Marks(tables, victims, marked)
        && forall c :: Balancer.Relieved(tables, victims, c, Balancer.CeilDiv(|tables|, |captures|))
  }

  lemma SameMoves(d: Dispatcher, d': Dispatcher, rebalance: bool)
    requires d'.tables == d.tables && d'.captures == d.captures
    requires forall t :: MoveWanted(d'.jobs, d.captures, t) <==> MoveWanted(d.jobs, d.captures, t)
    ensures Unmoving(d, rebalance) <==> Unmoving(d', rebalance)
  {
    if Unmoving(d, rebalance) {
      forall t ensures !MoveDue(d', t) {
        assert !MoveDue(d, t);
      }
    }
    if Unmoving(d', rebalance) {
      forall t ensures !MoveDue(d, t) {
        assert !MoveDue(d', t);
      }
    }
  }

  lemma VictimsMarked(tables: map<TableID, TableRecord>, captures: set<CaptureID>, victims: set<TableID>,
                      marked: map<TableID, TableRecord>)
    requires Balancer.Marks(tables, victims, marked)
    requires captures != {} ==>
               forall c :: Balancer.Relieved(tables, victims, c, Balancer.CeilDiv(|tables|, |captures|))
    ensures Rebalanced(tables, captures, marked)
    ensures if victims == {} then marked == tables else exists t :: t in marked && marked[t].status.RemovingTable?
  {
    if victims != {} {
      var t :| t in victims;
      assert marked[t].status.RemovingTable?;
    }
  }

  /** If all tables run after the diff, there was nothing to do. */
  lemma NothingApplied(before: map<TableID, TableRecord>, should: set<TableID>, after: map<TableID, TableRecord>)
    requires Applied(before, should, after) && |after| == |should|
    requires forall t :: t in after ==> after[t].status.RunningTable? && t in should
    ensures after == before && before.Keys == should
  {
    SameSizeSubset(after.Keys, should);
  }

  lemma LostJobsUnwanted(jobs: map<TableID, MoveJob>, lost: set<CaptureID>, captures: set<CaptureID>)
    requires lost !! captures
    ensures forall t :: MoveWanted(jobs - LostJobs(jobs, lost), captures, t) <==> MoveWanted(jobs, captures, t)
  {
  }

  function CapturesOf(tables: map<TableID, TableRecord>): (r: set<CaptureID>)
    ensures forall t :: t in tables ==> tables[t].captureID in r
  {
    set t | t in tables :: tables[t].captureID
  }

  function LostJobs(jobs: map<TableID, MoveJob>, lost: set<CaptureID>): set<TableID> {
    set t | t in jobs && jobs[t].target in lost
  }

  lemma RunningIsNormal(tables: map<TableID, TableRecord>)
    requires forall t :: t in tables ==> tables[t].status.RunningTable?
    ensures AllNormal(tables, |tables|)
  {
    assert WithStatus(tables, RunningTable) == tables.Keys;
    assert WithStatus(tables, AddingTable) == {} && WithStatus(tables, RemovingTable) == {};
  }

  lemma NoVictims(tables: map<TableID, TableRecord>, captures: set<CaptureID>, victims: set<TableID>)
    requires victims <= tables.Keys && (captures == {} ==> victims == {})
    requires forall t :: t in tables ==> tables[t].captureID in captures
    requires captures != {} ==>
               forall c :: Balancer.Relieved(tables, victims, c, Balancer.CeilDiv(|tables|, |captures|))
    ensures victims == {} <==> !Overloaded(tables, captures)
  {
    if captures != {} {
      var limit := Balancer.CeilDiv(|tables|, |captures|);
      if victims == {} {
        forall c | c in captures ensures Balancer.Load(tables, c) <= limit {
          assert Balancer.Relieved(tables, victims, c, limit);
          assert victims * TablesOn(tables, c) == {};
        }
      } else {
        var t :| t in victims;
        var c := tables[t].captureID;
        assert Balancer.Relieved(tables, victims, c, limit);
        assert t in victims * TablesOn(tables, c);
      }
    }
  }

  /** What is left when the captures are lost. */
  ghost predicate Lacks(tables0: map<TableID, TableRecord>, jobs0: map<TableID, MoveJob>, lost: set<CaptureID>,
                        tables: map<TableID, TableRecord>, jobs: map<TableID, MoveJob>) {
    && tables == Remaining(tables0, CapturesOf(tables0) - lost)
    && jobs == jobs0 - LostJobs(jobs0, lost)
  }

  lemma LacksMore(tables0: map<TableID, TableRecord>, jobs0: map<TableID, MoveJob>, lost: set<CaptureID>,
                  tables: map<TableID, TableRecord>, jobs: map<TableID, MoveJob>, c: CaptureID)
    requires Lacks(tables0, jobs0, lost, tables, jobs)
    ensures Lacks(tables0, jobs0, lost + {c}, WithoutCapture(tables, c), jobs - JobsTo(jobs, c))
  {
  }

  lemma LacksAllBut(tables: map<TableID, TableRecord>, captures: set<CaptureID>)
    ensures var lost := CapturesOf(tables) - captures;
            Remaining(tables, CapturesOf(tables) - lost) == Remaining(tables, captures)
  {
  }

  /** A capture that has not been announced to yet has been now, unless the announcement was refused. */
  function Announced(s: CaptureStatus, c: CaptureID, refused: set<Envelope>): CaptureStatus {
    if s.sync.Uninitialized? && Envelope(c, Announce) !in refused then s.(sync := SyncSent) else s
  }

  /** Captures have been announced to, except those in `todo`, and the others synced are counted. */
  ghost predicate Syncing(before: map<CaptureID, CaptureStatus>, todo: set<CaptureID>, finished: set<CaptureID>,
                          refused: set<Envelope>, status: map<CaptureID, CaptureStatus>) {
    && status.Keys == before.Keys && todo <= before.Keys && finished <= before.Keys - todo
    && (forall c :: c in before ==> status[c] == if c in todo then before[c] else Announced(before[c], c, refused))
    && (forall c :: c in before && c !in todo ==> (c in finished <==> before[c].sync.SyncFinished?))
  }

  lemma SyncingOn(before: map<CaptureID, CaptureStatus>, todo: set<CaptureID>, finished: set<CaptureID>,
                  refused: set<Envelope>, status: map<CaptureID, CaptureStatus>, c: CaptureID)
    requires Syncing(before, todo, finished, refused, status) && c in todo
    ensures status[c] == before[c]
    ensures Syncing(before, todo - {c}, if before[c].sync.SyncFinished? then finished + {c} else finished, refused,
                    status[c := Announced(status[c], c, refused)])
  {
  }

  lemma Synced(before: map<CaptureID, CaptureStatus>, finished: set<CaptureID>, refused: set<Envelope>,
               status: map<CaptureID, CaptureStatus>)
    requires Syncing(before, {}, finished, refused, status)
    ensures |finished| == |status| <==> forall c :: c in before ==> before[c].sync.SyncFinished?
    ensures |finished| == |status| ==> status == before
  {
    assert |status| == |status.Keys|;
    if |finished| == |status| {
      SameSizeSubset(finished, status.Keys);
    }
    if forall c :: c in before ==> before[c].sync.SyncFinished? {
      assert finished == before.Keys;
    }
  }

  class BaseScheduleDispatcher {
    var tables: map<TableID, TableRecord>
    var captures: set<CaptureID>
    var captureStatus: map<CaptureID, CaptureStatus>
    var checkpointTs: Ts
    var moveTableJobs: map<TableID, MoveJob>
    var lastTickCaptureCount: int
    var needRebalance: bool

    // What the communicator was given to send in the current tick, and what it does not take:
    // no message is offered to it twice in a tick.
    var outbox: seq<Envelope>
    var refused: set<Envelope>

    // Where the current tick stood once it had taken in the capture list, the
    // actions it took since, and the states they led through.
    ghost var base: Dispatcher
    ghost var path: seq<Dispatcher>
    ghost var taken: seq<OwnerAction>

    // The tables that the current tick is to bring to run.
    ghost var goal: set<TableID>

    ghost function Abs(): Dispatcher
      reads this
    {
      Dispatcher(captures, captureStatus, tables, moveTableJobs)
    }

    ghost predicate OnTrack()
      reads this
    {
      && Path(path, taken) && path[0] == base && path[|taken|] == Abs() && outbox == MailOf(path, taken)
      && Level.AllFair(path, taken, goal)
    }

    constructor (startTs: Ts)
      ensures Abs() == INIT && checkpointTs == startTs && !needRebalance
      ensures lastTickCaptureCount == CAPTURE_COUNT_UNINITIALIZED
    {
      tables, captures, captureStatus, moveTableJobs := map[], {}, map[], map[];
      checkpointTs := startTs;
      lastTickCaptureCount := CAPTURE_COUNT_UNINITIALIZED;
      needRebalance := false;
    }

    ghost method Took(before: Dispatcher, a: OwnerAction)
      requires Path(path, taken) && path[0] == base && path[|taken|] == before && Moves(before, a, Abs())
      requires Level.AllFair(path, taken, goal) && Level.Fair(before, goal, a)
      requires outbox == MailOf(path, taken) + Sends(before, a)
      modifies this`taken, this`path
      ensures path == old(path) + [Abs()] && taken == old(taken) + [a] && OnTrack()
    {
      PathSnoc(path, taken, a, Abs());
      MailSnoc(path, taken, a, Abs());
      Level.FairSnoc(path, taken, goal, a, Abs());
      path, taken := path + [Abs()], taken + [a];
    }

    ghost method StartPath()
      requires outbox == []
      modifies this`base, this`path, this`taken
      ensures OnTrack() && base == Abs()
    {
      base, path, taken := Abs(), [Abs()], [];
    }

    method UpdateCaptureStatus()
      modifies this`captureStatus
      ensures captureStatus.Keys == captures
      ensures forall c :: c in captures ==>
                captureStatus[c] == if c in old(captureStatus) then old(captureStatus)[c]
                                    else CaptureStatus(Uninitialized, checkpointTs, checkpointTs)
    {
      var todo := captureStatus.Keys;
      while todo != {}
        invariant todo <= captureStatus.Keys
        invariant captureStatus == old(captureStatus) - (old(captureStatus).Keys - captures - todo)
      {
        var c :| c in todo;
        if c !in captures {
          captureStatus := captureStatus - {c};
        }
        todo := todo - {c};
      }
      ghost var kept := captureStatus;
      todo := captures;
      while todo != {}
        invariant todo <= captures
        invariant captureStatus.Keys == kept.Keys + (captures - todo)
        invariant forall c :: c in captureStatus ==>
                    captureStatus[c]
                    == if c in kept then kept[c] else CaptureStatus(Uninitialized, checkpointTs, checkpointTs)
      {
        var c :| c in todo;
        if c !in captureStatus {
          captureStatus := captureStatus[c := CaptureStatus(Uninitialized, checkpointTs, checkpointTs)];
        }
        todo := todo - {c};
      }
    }

    method AnnounceTo(c: CaptureID)
      requires OnTrack() && c in captureStatus && captureStatus[c].sync.Uninitialized?
      modifies this`captureStatus, this`outbox, this`taken, this`path
      ensures OnTrack() && captureStatus == old(captureStatus)[c := old(captureStatus)[c].(sync := SyncSent)]
      ensures outbox == old(outbox) + [Envelope(c, Announce)]
    {
      ghost var before := Abs();
      outbox := outbox + [Envelope(c, Announce)];
      captureStatus := captureStatus[c := captureStatus[c].(sync := SyncSent)];
      Took(before, SendAnnounce(c));
    }

    method SyncCapture(c: CaptureID) returns (synced: bool)
      requires OnTrack() && c in captureStatus
      modifies this`captureStatus, this`outbox, this`taken, this`path
      ensures OnTrack() && (synced <==> old(captureStatus)[c].sync.SyncFinished?)
      ensures captureStatus == old(captureStatus)[c := Announced(old(captureStatus)[c], c, refused)]
      ensures outbox == old(outbox) + if captureStatus == old(captureStatus) then [] else [Envelope(c, Announce)]
    {
      match captureStatus[c].sync {
        case Uninitialized =>
          if Envelope(c, Announce) !in refused {
            AnnounceTo(c);
          }
          return false;
        case SyncFinished => return true;
        case SyncSent => return false;
      }
    }

    /** Announces to every capture not announced to yet. */
    method SyncCaptures() returns (allSynced: bool)
      requires OnTrack() && captureStatus.Keys == captures
      modifies this`captureStatus, this`outbox, this`taken, this`path
      ensures OnTrack() && captureStatus.Keys == captures
      ensures forall c :: c in captures ==> captureStatus[c] == Announced(old(captureStatus)[c], c, refused)
      ensures allSynced <==> AllSynced(old(Abs()))
      ensures allSynced ==> AllSynced(Abs()) && captureStatus == old(captureStatus)
    {
      var finishedCount := 0;
      ghost var finished: set<CaptureID> := {};
      var todo := captureStatus.Keys;
      while todo != {}
        invariant OnTrack() && |finished| == finishedCount
        invariant Syncing(old(captureStatus), todo, finished, refused, captureStatus)
      {
        var c :| c in todo;
        SyncingOn(old(captureStatus), todo, finished, refused, captureStatus, c);
        var synced := SyncCapture(c);
        if synced {
          finishedCount := finishedCount + 1;
          finished := finished + {c};
        }
        todo := todo - {c};
      }
      Synced(old(captureStatus), finished, refused, captureStatus);
      allSynced := finishedCount == |captureStatus|;
    }

    method DropCapture(c: CaptureID)
      requires OnTrack() && AllSynced(Abs()) && c !in captures
      modifies this`tables, this`moveTableJobs, this`outbox, this`taken, this`path
      ensures OnTrack() && AllSynced(Abs())
      ensures tables == WithoutCapture(old(tables), c)
              && moveTableJobs == old(moveTableJobs) - JobsTo(old(moveTableJobs), c)
    {
      ghost var before := Abs();
      tables := WithoutCapture(tables, c);
      moveTableJobs := moveTableJobs - JobsTo(moveTableJobs, c);
      Took(before, Deschedule(c));
    }

    /** Drops the tables on captures that are gone, and the moves to those of them that had tables. */
    method DescheduleTablesFromDownCaptures()
      requires OnTrack() && AllSynced(Abs())
      modifies this`tables, this`moveTableJobs, this`outbox, this`taken, this`path
      ensures OnTrack() && AllSynced(Abs())
      ensures tables == Remaining(old(tables), captures)
      ensures moveTableJobs == old(moveTableJobs) - LostJobs(old(moveTableJobs), CapturesOf(old(tables)) - captures)
    {
      ghost var lost: set<CaptureID> := {};
      var todo := CapturesOf(tables);
      assert LostJobs(moveTableJobs, lost) == {};
      while todo != {}
        invariant OnTrack() && AllSynced(Abs()) && todo <= CapturesOf(old(tables))
        invariant lost == CapturesOf(old(tables)) - todo - captures
        invariant Lacks(old(tables), old(moveTableJobs), lost, tables, moveTableJobs)
      {
        var c :| c in todo;
        if c !in captures {
          LacksMore(old(tables), old(moveTableJobs), lost, tables, moveTableJobs, c);
          DropCapture(c);
          lost := lost + {c};
        }
        todo := todo - {c};
      }
      LacksAllBut(old(tables), captures);
    }

    method AddTable(t: TableID) returns (done: bool)
      requires OnTrack() && AllSynced(Abs()) && t !in tables && t in goal
      modifies this`tables, this`moveTableJobs, this`outbox, this`taken, this`path
      ensures OnTrack() && AllSynced(Abs())
      ensures t in tables ==> tables[t].status.AddingTable? && Balancer.Chosen(old(Abs()), t, tables[t].captureID)
      ensures tables == if t in tables then old(tables)[t := tables[t]] else old(tables)
      ensures moveTableJobs
              == if t in tables && MoveReady(old(Abs()), t) then old(moveTableJobs) - {t} else old(moveTableJobs)
      ensures done && (captures != {} || MoveReady(old(Abs()), t)) ==>
                t in tables && outbox == old(outbox) + [Envelope(tables[t].captureID, Dispatch(Op(t, false)))]
      ensures !done ==>
                && t !in tables
                && exists c :: Balancer.Chosen(old(Abs()), t, c) && Envelope(c, Dispatch(Op(t, false))) in refused
      ensures t !in tables ==> outbox == old(outbox)
    {
      var target: CaptureID;
      if MoveReady(Dispatcher(captures, captureStatus, tables, moveTableJobs), t) {
        target := moveTableJobs[t].target;
      } else {
        var ok;
        target, ok := Balancer.FindTarget(tables, captures);
        if !ok {
          return true;
        }
      }
      assert Balancer.Chosen(Abs(), t, target);
      if Envelope(target, Dispatch(Op(t, false))) in refused {
        return false;
      }
      ghost var before := Abs();
      if t in moveTableJobs && moveTableJobs[t].removed {
        moveTableJobs := moveTableJobs - {t};
      }
      outbox := outbox + [Envelope(target, Dispatch(Op(t, false)))];
      tables := tables[t := TableRecord(target, AddingTable)];
      Took(before, DispatchAdd(t, target));
      return true;
    }

    method RemoveTable(t: TableID) returns (done: bool)
      requires OnTrack() && AllSynced(Abs()) && IsRunning(Abs(), t)
      modifies this`tables, this`outbox, this`taken, this`path
      ensures OnTrack() && AllSynced(Abs())
      ensures done <==> Envelope(old(tables)[t].captureID, Dispatch(Op(t, true))) !in refused
      ensures tables == if done then old(tables)[t := old(tables)[t].(status := RemovingTable)] else old(tables)
      ensures outbox == old(outbox) + if done then [Envelope(old(tables)[t].captureID, Dispatch(Op(t, true)))] else []
    {
      var request := Envelope(tables[t].captureID, Dispatch(Op(t, true)));
      done := request !in refused;
      if done {
        ghost var before := Abs();
        outbox := outbox + [request];
        tables := tables[t := tables[t].(status := RemovingTable)];
        Took(before, DispatchRemove(t));
      }
    }

    method AddMissing(missing: set<TableID>) returns (done: bool)
      requires OnTrack() && AllSynced(Abs()) && missing !! tables.Keys && missing <= goal
      modifies this`tables, this`moveTableJobs, this`outbox, this`taken, this`path
      ensures OnTrack() && AllSynced(Abs())
      ensures Came(old(tables), missing, tables)
      ensures done && captures != {} ==> missing <= tables.Keys
      ensures missing == {} ==> done && moveTableJobs == old(moveTableJobs)
      ensures refused == {} ==> done
      ensures Asked(old(tables), tables, outbox)
    {
      var todo := missing;
      while todo != {}
        invariant OnTrack() && AllSynced(Abs()) && todo !! tables.Keys && todo <= missing
        invariant Came(old(tables), missing, tables)
        invariant captures != {} ==> missing <= tables.Keys + todo
        invariant Asked(old(tables), tables, outbox)
        invariant missing == {} ==> moveTableJobs == old(moveTableJobs)
      {
        var t :| t in todo;
        var ok := AddTable(t);
        if !ok {
          return false;
        }
        todo := todo - {t};
      }
      return true;
    }

    method RemoveExtra(extra: set<TableID>) returns (done: bool)
      requires OnTrack() && AllSynced(Abs()) && extra <= tables.Keys
      modifies this`tables, this`outbox, this`taken, this`path
      ensures OnTrack() && AllSynced(Abs())
      ensures Leaving(old(tables), extra, tables)
      ensures done ==> forall t :: t in extra ==> !tables[t].status.RunningTable?
      ensures extra == {} ==> done
      ensures refused == {} ==> done
      ensures old(outbox) <= outbox && Dismissed(old(tables), tables, outbox)
    {
      var todo := extra;
      while todo != {}
        invariant OnTrack() && AllSynced(Abs()) && todo <= extra
        invariant Leaving(old(tables), extra, tables)
        invariant old(outbox) <= outbox && Dismissed(old(tables), tables, outbox)
        invariant forall t :: t in extra - todo ==> !tables[t].status.RunningTable?
      {
        var t :| t in todo;
        if tables[t].status.RunningTable? {
          var ok := RemoveTable(t);
          if !ok {
            return false;
          }
        }
        todo := todo - {t};
      }
      return true;
    }

    /** Adds the missing tables and takes the superfluous ones off, as far as sends go through. */
    method ApplyDiff(should: set<TableID>) returns (done: bool)
      requires OnTrack() && AllSynced(Abs()) && should <= goal
      modifies this`tables, this`moveTableJobs, this`outbox, this`taken, this`path
      ensures OnTrack() && AllSynced(Abs())
      ensures Applied(old(tables), should, tables)
      ensures done ==> forall t :: t in tables && t !in should ==> !tables[t].status.RunningTable?
      ensures done && captures != {} ==> should <= tables.Keys
      ensures old(tables).Keys == should ==> done && tables == old(tables) && moveTableJobs == old(moveTableJobs)
      ensures refused == {} ==> done
      ensures Asked(old(tables), tables, outbox) && Dismissed(old(tables), tables, outbox)
    {
      var toAdd := should - tables.Keys;
      var toRemove := tables.Keys - should;
      done := AddMissing(toAdd);
      ghost var mid := tables;
      if done {
        done := RemoveExtra(toRemove);
      }
      CameAndLeaving(old(tables), should, mid, tables);
    }

    /** Gives a move up or sends the table off its capture; false if the send fails. */
    method StartMove(t: TableID) returns (done: bool)
      requires OnTrack() && AllSynced(Abs()) && t in moveTableJobs && !moveTableJobs[t].removed
      requires t in tables ==> tables[t].status.RunningTable?
      modifies this`tables, this`moveTableJobs, this`outbox, this`taken, this`path
      ensures OnTrack() && AllSynced(Abs())
      ensures !MoveDue(old(Abs()), t) ==> done && tables == old(tables) && moveTableJobs == old(moveTableJobs) - {t}
      ensures MoveDue(old(Abs()), t) && !done ==> tables == old(tables) && moveTableJobs == old(moveTableJobs)
      ensures MoveDue(old(Abs()), t) && done ==>
                && tables == old(tables)[t := old(tables)[t].(status := RemovingTable)]
                && moveTableJobs == old(moveTableJobs)[t := old(moveTableJobs)[t].(removed := true)]
                && outbox == old(outbox) + [Envelope(old(tables)[t].captureID, Dispatch(Op(t, true)))]
      ensures MoveDue(old(Abs()), t) ==>
                (done <==> Envelope(old(tables)[t].captureID, Dispatch(Op(t, true))) !in refused)
    {
      ghost var before := Abs();
      if t !in tables || moveTableJobs[t].target !in captures {
        moveTableJobs := moveTableJobs - {t};
        Took(before, AbandonMove(t));
        return true;
      }
      var request := Envelope(tables[t].captureID, Dispatch(Op(t, true)));
      done := request !in refused;
      if done {
        outbox := outbox + [request];
        tables := tables[t := tables[t].(status := RemovingTable)];
        moveTableJobs := moveTableJobs[t := moveTableJobs[t].(removed := true)];
        Took(before, DispatchMove(t));
      }
    }

    /** Gives up moves that cannot be made and starts the others, as far as sends go through. */
    method HandleMoveTableJobs() returns (done: bool)
      requires OnTrack() && AllSynced(Abs())
      requires forall t :: t in tables ==> tables[t].status.RunningTable?
      modifies this`tables, this`moveTableJobs, this`outbox, this`taken, this`path
      ensures OnTrack() && AllSynced(Abs())
      ensures tables.Keys == old(tables).Keys
      ensures forall t :: t in tables && tables[t] != old(tables)[t] ==> MoveStarted(old(Abs()), Abs(), t)
      ensures done ==> forall t {:trigger MoveDue(old(Abs()), t)} ::
                MoveDue(old(Abs()), t) ==> MoveStarted(old(Abs()), Abs(), t)
      ensures done ==> forall t :: t in moveTableJobs ==> moveTableJobs[t].removed
      ensures !done ==> refused != {} && exists t :: MoveDue(old(Abs()), t)
    {
      ghost var d := Abs();
      var todo := moveTableJobs.Keys;
      while todo != {}
        invariant OnTrack() && AllSynced(Abs())
        invariant MovesBegun(d, todo, tables, moveTableJobs)
      {
        var t :| t in todo;
        ghost var tables0, jobs0 := tables, moveTableJobs;
        assert MoveDue(d, t) <==> MoveDue(Abs(), t);
        if !moveTableJobs[t].removed {
          var ok := StartMove(t);
          if !ok {
            return false;
          }
        }
        OneMoveBegun(d, todo, tables0, jobs0, t, tables, moveTableJobs);
        todo := todo - {t};
      }
      return true;
    }

    method RemoveVictims(victims: set<TableID>) returns (done: bool)
      requires OnTrack() && AllSynced(Abs()) && victims <= tables.Keys
      requires forall t :: t in tables ==> tables[t].status.RunningTable?
      modifies this`tables, this`outbox, this`taken, this`path
      ensures OnTrack() && AllSynced(Abs())
      ensures tables.Keys == old(tables).Keys
      ensures done ==> Balancer.Marks(old(tables), victims, tables)
      ensures Eased(old(tables), tables)
      ensures victims == {} || refused == {} ==> done
    {
      var todo := victims;
      while todo != {}
        invariant OnTrack() && AllSynced(Abs()) && todo <= victims
        invariant Balancer.Marks(old(tables), victims - todo, tables)
        invariant Eased(old(tables), tables)
      {
        var t :| t in todo;
        var sent := RemoveTable(t);
        if !sent {
          return false;
        }
        todo := todo - {t};
      }
      assert victims - todo == victims;
      return true;
    }

    method RebalanceTables() returns (done: bool)
      requires OnTrack() && AllSynced(Abs()) && AllRunning(Abs())
      modifies this`tables, this`outbox, this`taken, this`path
      ensures OnTrack() && AllSynced(Abs())
      ensures tables.Keys == old(tables).Keys
      ensures done ==> Rebalanced(old(tables), captures, tables)
      ensures done && captures != {} ==> Balancer.Levelled(tables, old(tables).Keys, captures)
      ensures Eased(old(tables), tables)
      ensures refused == {} ==> done
      ensures !Overloaded(old(tables), captures) ==> done && tables == old(tables)
      ensures done && Overloaded(old(tables), captures) ==> exists t :: t in tables && tables[t].status.RemovingTable?
    {
      var victims := Balancer.FindVictims(tables, captures);
      NoVictims(tables, captures, victims);
      done := RemoveVictims(victims);
      if done {
        VictimsMarked(old(tables), captures, victims, tables);
        if captures != {} {
          Balancer.MarkingLevels(old(tables), captures, victims, tables);
        }
      }
    }

    method CalculateTs() returns (checkpoint: Ts, resolved: Ts)
      ensures IsWatermark(checkpoint, tables, captureStatus, CheckpointOf)
      ensures IsWatermark(resolved, tables, captureStatus, ResolvedOf)
    {
      checkpoint, resolved := MAX_UINT64, MAX_UINT64;
      var todo := captureStatus.Keys;
      while todo != {}
        invariant todo <= captureStatus.Keys
        invariant IsWatermark(checkpoint, tables, captureStatus - todo, CheckpointOf)
        invariant IsWatermark(resolved, tables, captureStatus - todo, ResolvedOf)
      {
        var c :| c in todo;
        assert forall t :: t in tables && tables[t].captureID == c ==> t in TablesOn(tables, c);
        if |TablesOn(tables, c)| != 0 {
          ghost var w :| w in TablesOn(tables, c);
          assert tables[w].captureID in captureStatus - (todo - {c});
          if captureStatus[c].resolvedTs < resolved {
            resolved := captureStatus[c].resolvedTs;
          }
          if captureStatus[c].checkpointTs < checkpoint {
            checkpoint := captureStatus[c].checkpointTs;
          }
        }
        todo := todo - {c};
      }
    }

    /** Brings the tables to run into line with the list, and says whether all of them run. */
    method PlaceTables(currentTables: seq<TableID>) returns (settled: bool)
      requires OnTrack() && AllSynced(Abs()) && goal == Elements(currentTables)
      modifies this`tables, this`moveTableJobs, this`outbox, this`taken, this`path
      ensures OnTrack() && AllSynced(Abs())
      ensures settled ==> |tables| == |currentTables| && tables.Keys <= Elements(currentTables) && AllRunning(Abs())
      ensures Distinct(currentTables) ==> (settled <==> Placed(old(Abs()), Elements(currentTables)))
      ensures refused == {} ==> Ordered(Remaining(old(tables), captures), goal, captures, tables, outbox)
      ensures settled && Distinct(currentTables) ==>
                && tables == Remaining(old(tables), captures)
                && moveTableJobs
                   == old(moveTableJobs) - LostJobs(old(moveTableJobs), CapturesOf(old(tables)) - captures)
    {
      DescheduleTablesFromDownCaptures();
      ghost var left, should := tables, Elements(currentTables);
      settled := ApplyDiff(Elements(currentTables));
      if refused == {} {
        NowOrdered(left, goal, captures, tables, outbox);
      }
      if Distinct(currentTables) {
        DistinctSize(currentTables);
        if Placed(old(Abs()), should) {
          RunningIsNormal(tables);
        }
      }
      if !settled || !AllNormal(tables, |currentTables|) {
        return false;
      }
      NormalMeansRunning(tables, |currentTables|);
      if Distinct(currentTables) {
        NothingApplied(left, should, tables);
      }
    }

    /** Serves a due rebalance, and says whether all tables still run. */
    method ServeRebalance() returns (settled: bool)
      requires OnTrack() && AllSynced(Abs()) && AllRunning(Abs())
      modifies this`tables, this`needRebalance, this`outbox, this`taken, this`path
      ensures OnTrack() && AllSynced(Abs())
      ensures settled <==> !(old(needRebalance) && Overloaded(old(tables), captures))
      ensures settled ==> tables == old(tables)
      ensures Eased(old(tables), tables)
      ensures refused == {} ==> !needRebalance
      ensures needRebalance ==> old(needRebalance)
      ensures old(needRebalance) && !needRebalance && captures != {} ==>
                Balancer.Levelled(tables, old(tables).Keys, captures)
    {
      if needRebalance {
        settled := RebalanceTables();
        if !settled {
          return;
        }
        needRebalance := false;
      }
      EasedOrNormal(old(tables), tables);
      return AllNormal(tables, |tables|);
    }

    /** Serves manual moves and a due rebalance, and says whether all tables still run. */
    method MoveTables() returns (settled: bool)
      requires OnTrack() && AllSynced(Abs()) && AllRunning(Abs())
      modifies this`tables, this`moveTableJobs, this`needRebalance, this`outbox, this`taken, this`path
      ensures OnTrack() && AllSynced(Abs())
      ensures settled <==> Unmoving(old(Abs()), old(needRebalance))
      ensures settled ==> tables == old(tables)
      ensures Eased(old(tables), tables)
      ensures refused == {} ==> AllMovesStarted(old(Abs()), Abs())
      ensures refused == {} && Unmoving(old(Abs()), false) ==> !needRebalance
      ensures needRebalance ==> old(needRebalance)
      ensures old(needRebalance) && !needRebalance && captures != {} ==>
                Balancer.Levelled(tables, old(tables).Keys, captures)
    {
      settled := HandleMoveTableJobs();
      if !settled {
        return false;
      }
      if !AllNormal(tables, |tables|) {
        RunningIsNormal(old(tables));
        assert tables != old(tables);
        return false;
      }
      NormalMeansRunning(tables, |tables|);
      assert tables == old(tables);
      settled := ServeRebalance();
    }

    method SettleTables(currentTables: seq<TableID>) returns (settled: bool)
      requires OnTrack() && AllSynced(Abs()) && goal == Elements(currentTables)
      modifies this`tables, this`moveTableJobs, this`needRebalance, this`outbox, this`taken, this`path
      ensures OnTrack() && AllSynced(Abs())
      ensures settled ==> |tables| == |currentTables| && AllRunning(Abs())
      ensures Distinct(currentTables) ==> (settled <==> Calm(old(Abs()), Elements(currentTables), old(needRebalance)))
      ensures settled && Distinct(currentTables) ==> tables.Keys == Elements(currentTables)
      ensures Distinct(currentTables) && old(needRebalance) && !needRebalance && captures != {} ==>
                Balancer.Levelled(tables, goal, captures)
      ensures refused == {} ==> Ordered(Remaining(old(tables), captures), goal, captures, tables, outbox)
      ensures refused == {} && Distinct(currentTables) && Placed(old(Abs()), goal) ==>
                Served(old(Abs()).(tables := Remaining(old(tables), captures)), Abs(), needRebalance)
    {
      ghost var d, lost := old(Abs()).(tables := Remaining(old(tables), captures)), CapturesOf(tables) - captures;
      settled := PlaceTables(currentTables);
      if settled {
        if Distinct(currentTables) {
          LostJobsUnwanted(d.jobs, lost, captures);
          SameMoves(d, Abs(), needRebalance);
          SameMoves(d, Abs(), false);
        }
        ghost var mid, mail := Abs(), outbox;
        settled := MoveTables();
        if refused == {} {
          StillOrdered(d.tables, goal, captures, mid.tables, mail, tables, outbox);
          if Distinct(currentTables) {
            SameStarts(d, lost, mid, Abs());
          }
        }
      }
    }

    /** A change in the number of captures calls for a rebalance, except at the first tick. */
    method CountCaptures(count: nat)
      modifies this`lastTickCaptureCount, this`needRebalance
      ensures lastTickCaptureCount == count
      ensures needRebalance <==> RebalanceDue(old(needRebalance), old(lastTickCaptureCount), count)
    {
      if lastTickCaptureCount != CAPTURE_COUNT_UNINITIALIZED && lastTickCaptureCount != count {
        needRebalance := true;
      }
      lastTickCaptureCount := count;
    }

    /** Takes in the capture list. */
    method BeginTick(newCheckpointTs: Ts, newCaptures: set<CaptureID>)
      modifies this`captures, this`checkpointTs, this`captureStatus, this`outbox, this`base, this`path, this`taken
      ensures OnTrack() && Listed(old(Abs()), newCaptures, newCheckpointTs, base) && base == Abs()
      ensures captureStatus.Keys == captures == newCaptures && checkpointTs == newCheckpointTs
    {
      captures := newCaptures;
      checkpointTs := newCheckpointTs;
      UpdateCaptureStatus();
      outbox := [];
      StartPath();
    }

    method StartTick(newCheckpointTs: Ts, currentTables: seq<TableID>, newCaptures: set<CaptureID>,
                     newRefused: set<Envelope>)
      modifies this
      ensures refused == newRefused
      ensures OnTrack() && Listed(old(Abs()), newCaptures, newCheckpointTs, base) && base == Abs()
      ensures captureStatus.Keys == captures == newCaptures && checkpointTs == newCheckpointTs
      ensures goal == Elements(currentTables)
      ensures needRebalance <==> RebalanceDue(old(needRebalance), old(lastTickCaptureCount), |newCaptures|)
    {
      goal := Elements(currentTables);
      refused := newRefused;
      BeginTick(newCheckpointTs, newCaptures);
      CountCaptures(|newCaptures|);
    }

    method Advance(currentTables: seq<TableID>) returns (reached: bool, checkpoint: Ts, resolved: Ts)
      requires OnTrack() && captureStatus.Keys == captures && goal == Elements(currentTables)
      modifies this`tables, this`captureStatus, this`moveTableJobs, this`needRebalance, this`outbox, this`taken,
               this`path
      ensures OnTrack()
      ensures AllAnnounced(old(Abs()), Abs(), refused)
      ensures AllSynced(old(Abs())) && refused == {} ==>
                Obeyed(old(Abs()), currentTables, Abs(), outbox, needRebalance)
      ensures !reached ==> checkpoint == resolved == CHECKPOINT_CANNOT_PROCEED
      ensures reached ==> Steady(Abs(), currentTables, checkpoint, resolved)
      ensures Distinct(currentTables) ==> (reached <==> Calm(old(Abs()), Elements(currentTables), old(needRebalance)))
      ensures Distinct(currentTables) && old(needRebalance) && !needRebalance && captures != {} ==>
                Balancer.Levelled(tables, goal, captures)
    {
      reached, checkpoint, resolved := false, CHECKPOINT_CANNOT_PROCEED, CHECKPOINT_CANNOT_PROCEED;
      var synced := SyncCaptures();
      if !synced {
        return;
      }
      reached := SettleTables(currentTables);
      if reached {
        checkpoint, resolved := CalculateTs();
      }
    }

    /** One tick, in which the communicator does not take the messages in `newRefused`. When
        it gets as far as the watermarks, the tables tracked are exactly those that should
        run, each running on a listed, synced capture, and the watermarks are the least of
        those captures' last reports. It gets there just if there is nothing to wait for and
        nothing to send. Whatever it does, it moves by enabled actions only, adds tables only
        where they belong, and tells the captures. If nothing is refused it does all there is
        to do. After a tick with a rebalance no capture keeps more than its share of the tables. */
    method Tick(newCheckpointTs: Ts, currentTables: seq<TableID>, newCaptures: set<CaptureID>,
                newRefused: set<Envelope>)
      returns (reached: bool, checkpoint: Ts, resolved: Ts)
      requires checkpointTs <= newCheckpointTs
      modifies this
      ensures OnTrack() && Listed(old(Abs()), newCaptures, newCheckpointTs, base)
      ensures captures == newCaptures && checkpointTs == newCheckpointTs
      ensures !reached ==> checkpoint == resolved == CHECKPOINT_CANNOT_PROCEED
      ensures reached ==> Steady(Abs(), currentTables, checkpoint, resolved)
      ensures Distinct(currentTables) ==>
                (reached <==>
                 Calm(base, Elements(currentTables),
                      RebalanceDue(old(needRebalance), old(lastTickCaptureCount), |newCaptures|)))
      ensures goal == Elements(currentTables)
      ensures Distinct(currentTables) && newCaptures != {} && !needRebalance
              && RebalanceDue(old(needRebalance), old(lastTickCaptureCount), |newCaptures|) ==>
                Balancer.Levelled(tables, goal, captures)
      ensures Told(base, Abs(), outbox)
      ensures Greeted(base, Abs(), newRefused, outbox)
      ensures AllSynced(base) && newRefused == {} ==> Obeyed(base, currentTables, Abs(), outbox, needRebalance)
    {
      StartTick(newCheckpointTs, currentTables, newCaptures, newRefused);
      reached, checkpoint, resolved := Advance(currentTables);
      ChangesAreTold(path, taken);
      GreetedNow(base, Abs(), refused, outbox);
    }

    // ----- Handlers -----

    /** `ok` is false where the source panics. */
    method OnAgentFinishedTableOperation(c: CaptureID, t: TableID) returns (ok: bool)
      modifies this`tables
      ensures OnFinish(old(Abs()), c, t) == if ok then Done(Abs()) else Panic
      ensures if c !in captures || t !in old(tables) then ok && tables == old(tables)
              else && (ok <==> old(tables)[t].captureID == c && !old(tables)[t].status.RunningTable?)
                   && (ok ==> tables == if old(tables)[t].status.AddingTable?
                                        then old(tables)[t := TableRecord(c, RunningTable)] else old(tables) - {t})
    {
      if c !in captures || t !in tables {
        return true;
      }
      if tables[t].captureID != c {
        return false;
      }
      match tables[t].status {
        case AddingTable => tables := tables[t := tables[t].(status := RunningTable)];
        case RemovingTable => tables := tables - {t};
        case RunningTable => return false;
      }
      return true;
    }

    method AddRecords(c: CaptureID, ids: seq<TableID>, status: TableStatus) returns (ok: bool)
      modifies this`tables
      ensures ok <==> Distinct(ids) && forall t :: t in ids ==> t !in old(tables)
      ensures ok ==> Added(old(tables), Elements(ids), TableRecord(c, status), tables)
    {
      var i := 0;
      while i < |ids|
        invariant 0 <= i <= |ids|
        invariant Distinct(ids[..i]) && forall t :: t in ids[..i] ==> t !in old(tables)
        invariant Added(old(tables), Elements(ids[..i]), TableRecord(c, status), tables)
      {
        assert ids[..i + 1] == ids[..i] + [ids[i]];
        assert Elements(ids[..i + 1]) == Elements(ids[..i]) + {ids[i]};
        if ids[i] in tables {
          assert ids[i] in old(tables) || ids[i] in ids[..i];
          return false;
        }
        tables := tables[ids[i] := TableRecord(c, status)];
        i := i + 1;
      }
      assert ids[..i] == ids;
      return true;
    }

    /** `ok` is false where the source panics: a table is named twice or is on another capture. */
    method OnAgentSyncTaskStatuses(c: CaptureID, running: seq<TableID>, adding: seq<TableID>, removing: seq<TableID>)
      returns (ok: bool)
      modifies this`tables, this`captureStatus
      ensures if c in old(captureStatus) && !(Distinct(running) && Distinct(adding) && Distinct(removing)) then !ok
              else OnSync(old(Abs()), c, Elements(running), Elements(adding), Elements(removing))
                   == if ok then Done(Abs()) else Panic
    {
      ghost var before := Abs();
      tables := WithoutCapture(tables, c);
      if c !in captureStatus {
        return true;
      }
      ClashMeansPanic(before, c, Elements(running), Elements(adding), Elements(removing));
      ok := AddReports(c, running, adding, removing);
      if ok {
        captureStatus := captureStatus[c := captureStatus[c].(sync := SyncFinished)];
      }
    }

    method AddReports(c: CaptureID, running: seq<TableID>, adding: seq<TableID>, removing: seq<TableID>)
      returns (ok: bool)
      modifies this`tables
      ensures ok <==>
              && Distinct(running) && Distinct(adding) && Distinct(removing)
              && !Clash(old(tables), Elements(running), Elements(adding), Elements(removing))
      ensures ok ==> tables == old(tables) + SyncRecords(c, Elements(running), Elements(adding), Elements(removing))
    {
      ghost var m0 := tables;
      ok := AddRecords(c, adding, AddingTable);
      if !ok {
        return;
      }
      ghost var m1 := tables;
      ok := AddRecords(c, running, RunningTable);
      if !ok {
        return;
      }
      ghost var m2 := tables;
      ok := AddRecords(c, removing, RemovingTable);
      if ok {
        AddedThrice(c, m0, m1, m2, tables, Elements(running), Elements(adding), Elements(removing));
      }
    }

    /** Only a synced capture's report is recorded. */
    method OnAgentCheckpoint(c: CaptureID, checkpoint: Ts, resolved: Ts)
      modifies this`captureStatus
      ensures captureStatus ==
              if c in old(captureStatus) && old(captureStatus)[c].sync.SyncFinished?
              then old(captureStatus)[c := CaptureStatus(SyncFinished, checkpoint, resolved)]
              else old(captureStatus)
    {
      if c !in captureStatus || !captureStatus[c].sync.SyncFinished? {
        return;
      }
      captureStatus := captureStatus[c := captureStatus[c].(checkpointTs := checkpoint, resolvedTs := resolved)];
    }

    /** A table that is already being moved is left alone. */
    method MoveTable(t: TableID, target: CaptureID)
      modifies this`moveTableJobs
      ensures if t in old(moveTableJobs) then Abs() == old(Abs())
              else Enabled(old(Abs()), RequestMove(t, target)) && Abs() == Step(old(Abs()), RequestMove(t, target))
      ensures t in moveTableJobs && (t !in old(moveTableJobs) ==> moveTableJobs[t] == MoveJob(target, false))
    {
      if t !in moveTableJobs {
        moveTableJobs := moveTableJobs[t := MoveJob(target, false)];
      }
    }

    method Rebalance()
      modifies this`needRebalance
      ensures needRebalance
    {
      needRebalance := true;
    }
  }
}
