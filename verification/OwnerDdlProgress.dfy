/** What the owner's runs achieve, said of events and published values alone: where the watermarks come
    from, that no DDL is lost, and that DDLs get executed. */
module OwnerDdlProgress {
  import opened OwnerDdlSpec
  import opened OwnerDdlRuns

  // ----- Where the watermarks come from -----

  lemma PublishesOrNot(s: Owner, e: Event)
    requires Enabled(s, e)
    ensures var s' := Step(s, e);
            if e.Tick? then
              Publication(s.checkpointTs, s.resolvedTs, s.barriers[e.tp], e.watermarks, s'.checkpointTs, s'.resolvedTs)
            else s'.checkpointTs == s.checkpointTs && s'.resolvedTs == s.resolvedTs
  {
    if e.Tick? {
      QueueAfterBarrier(s, e.tp, e.nextSyncPoint);
    }
  }

  /** The last of the first `k` events that published watermarks. */
  ghost predicate PublishedLast(states: seq<Owner>, events: seq<Event>, k: nat, i: nat)
    requires k <= |events| < |states|
  {
    && i < k && Publishes(states[i], events[i])
    && forall j {:trigger events[j]} :: i < j < k ==> !Publishes(states[j], events[j])
  }

  lemma {:induction false} LastPublication(states: seq<Owner>, events: seq<Event>, k: nat) returns (i: nat)
    requires IsRun(states, events) && k <= |events| && Published(states, events, k)
    ensures PublishedLast(states, events, k, i)
  {
    if Publishes(states[k - 1], events[k - 1]) {
      i := k - 1;
    } else {
      i := LastPublication(states, events, k - 1);
    }
  }

  lemma {:induction false} NotPublished(states: seq<Owner>, events: seq<Event>, i: nat, k: nat)
    requires IsRun(states, events) && i <= k <= |events|
    requires forall j {:trigger events[j]} :: i <= j < k ==> !Publishes(states[j], events[j])
    ensures states[k].checkpointTs == states[i].checkpointTs && states[k].resolvedTs == states[i].resolvedTs
  {
    if k > i {
      NotPublished(states, events, i, k - 1);
      var j := k - 1;
      assert Moves(states[j], events[j], states[j + 1]);
      PublishesOrNot(states[j], events[j]);
    }
  }

  /** In every run: what is published is what the scheduler gave to the last tick that published, the
      checkpoint as checkpoint and the resolved timestamp as resolved timestamp, each capped at the
      least barrier there was; or what the feed started with. */
  lemma WatermarksAreTheSchedulers(states: seq<Owner>, events: seq<Event>)
    requires IsRun(states, events)
    ensures var s := states[|events|];
            if Published(states, events, |events|) then
              exists i: nat :: PublishedLast(states, events, |events|, i) &&
                var (w, least) := (events[i].watermarks.value, states[i].barriers[events[i].tp]);
                && IsMin(states[i].barriers, events[i].tp)
                && Capped(s.checkpointTs, w.0, least) && Capped(s.resolvedTs, w.1, least)
            else s.checkpointTs == states[0].checkpointTs && s.resolvedTs == states[0].resolvedTs
  {
    if Published(states, events, |events|) {
      var i := LastPublication(states, events, |events|);
      assert Moves(states[i], events[i], states[i + 1]);
      PublishesOrNot(states[i], events[i]);
      NotPublished(states, events, i + 1, |events|);
    } else {
      NotPublished(states, events, 0, |events|);
    }
  }

  // ----- No DDL is lost -----

  /** The DDLs among the first `k` events, but for those that only repeat the one before. */
  function Arrived(events: seq<Event>, lastID: nat, k: nat): (seq<Ddl>, nat)
    requires k <= |events|
  {
    if k == 0 then ([], lastID)
    else
      var (ds, id) := Arrived(events, lastID, k - 1);
      match events[k - 1]
      case ReceiveDdl(d) => if d.id == id then (ds, id) else (ds + [d], d.id)
      case _ => (ds, id)
  }

  /** The largest resolved timestamp among the first `k` events, or the one at the start. */
  function Highest(events: seq<Event>, start: nat, k: nat): nat
    requires k <= |events|
  {
    if k == 0 then start
    else
      var ts := Highest(events, start, k - 1);
      if events[k - 1].ReceiveResolved? then Max(ts, events[k - 1].ts) else ts
  }

  lemma QueueMoves(s: Owner, tp: Barrier, next: nat, watermarks: Option<(nat, nat)>)
    requires tp in s.barriers
    ensures var t := Ticked(s, tp, next, watermarks);
            && t.past.gone + t.pending == s.past.gone + s.pending && t.lastID == s.lastID && t.pullerTs == s.pullerTs
            && t.past.lastTs == s.past.lastTs
  {
    QueueAfterBarrier(s, tp, next);
    GoneAfterBarrier(s, tp, next);
    if s.pending != [] {
      assert s.past.gone + [s.pending[0]] + s.pending[1..] == s.past.gone + s.pending;
    }
  }

  lemma GoneAfterBarrier(s: Owner, tp: Barrier, next: nat)
    requires tp in s.barriers
    ensures var t := HandleBarrier(s, tp, next);
            && t.lastID == s.lastID
            && if t.pending == s.pending then t.past.gone == s.past.gone
               else s.pending != [] && t.pending == s.pending[1..] && t.past.gone == s.past.gone + [s.pending[0]]
  {
  }

  /** In every run: what left the queue and what is in it are just the DDLs that arrived, in order;
      and the puller stands at the largest resolved timestamp. */
  lemma {:induction false} NoDdlIsLost(states: seq<Owner>, events: seq<Event>, k: nat)
    requires IsRun(states, events) && k <= |events|
    ensures var s := states[k];
            && (s.past.gone + s.pending, s.lastID) == Arrived(events, states[0].lastID, k)
            && s.pullerTs == Highest(events, states[0].pullerTs, k)
  {
    if k == 0 {
      assert states[0].past.gone + states[0].pending == [];
    } else {
      var i := k - 1;
      NoDdlIsLost(states, events, i);
      assert Moves(states[i], events[i], states[i + 1]);
      var s := states[i];
      match events[i]
      case ReceiveDdl(d) => assert s.past.gone + (s.pending + [d]) == s.past.gone + s.pending + [d];
      case Tick(tp, next, watermarks) => QueueMoves(states[i], tp, next, watermarks);
      case ReceiveResolved(_) =>
      case SinkTakes =>
      case SinkFinishes =>
    }
  }

  // ----- What happens to each DDL -----

  /** A DDL that is to be executed, or at least to be applied to the schema, has the timestamp. */
  ghost predicate Among(ds: seq<Ddl>, ts: nat, executed: bool) {
    exists d :: d in ds && d.ts == ts && if executed then d.skip.No? else !d.skip.Cyclic?
  }

  function Front(s: Owner): seq<Ddl> {
    if s.pending == [] then [] else [s.pending[0]]
  }

  ghost predicate Accounted(s: Owner) {
    && InOrder(s.past.gone + s.pending)
    && (forall i :: 0 <= i < |s.past.gone| ==> s.past.gone[i].ts <= s.past.lastTs)
    && (forall ts :: ts in s.past.started ==> Among(s.past.gone + Front(s), ts, true))
    && (forall ts :: ts in s.past.handled ==> Among(s.past.gone + Front(s), ts, false))
    && (forall d :: d in s.past.gone && !d.skip.Cyclic? ==> d.ts in s.past.handled)
  }

  lemma AmongMore(a: seq<Ddl>, b: seq<Ddl>, ts: nat, executed: bool)
    requires Among(a, ts, executed) && forall d :: d in a ==> d in b
    ensures Among(b, ts, executed)
  {
  }

  /** Executing the DDL at the front, or trying to. */
  lemma ExecAccounted(s: Owner)
    requires Inv(s) && Accounted(s) && s.pending != []
    ensures var (done, t) := ExecDdl(s, s.pending[0]);
            && Accounted(t) && t.pending == s.pending && t.past.gone == s.past.gone
            && (done && !s.pending[0].skip.Cyclic? ==> s.pending[0].ts in t.past.handled)
  {
    var d := s.pending[0];
    var (done, t) := ExecDdl(s, d);
    ExecRecords(s);
    FrontRecorded(s, t);
  }

  /** What executing the DDL at the front leaves on record. */
  lemma ExecRecords(s: Owner)
    requires s.pending != []
    ensures var d := s.pending[0];
            var (done, t) := ExecDdl(s, d);
            && t.pending == s.pending && t.past.gone == s.past.gone && t.past.lastTs == s.past.lastTs
            && (t.past.started == s.past.started || (d.skip.No? && t.past.started == s.past.started + [d.ts]))
            && (t.past.handled == s.past.handled || (!d.skip.Cyclic? && t.past.handled == s.past.handled + [d.ts]))
  {
  }

  lemma FrontRecorded(s: Owner, t: Owner)
    requires Accounted(s) && s.pending != []
    requires t.pending == s.pending && t.past.gone == s.past.gone && t.past.lastTs == s.past.lastTs
    requires var d := s.pending[0];
             && (t.past.started == s.past.started || (d.skip.No? && t.past.started == s.past.started + [d.ts]))
             && (t.past.handled == s.past.handled || (!d.skip.Cyclic? && t.past.handled == s.past.handled + [d.ts]))
    ensures Accounted(t)
  {
    var d := s.pending[0];
    assert d in t.past.gone + Front(t);
  }

  lemma PopAccounted(s: Owner)
    requires Accounted(s) && s.pending != [] && (!s.pending[0].skip.Cyclic? ==> s.pending[0].ts in s.past.handled)
    requires s.pending[0].ts <= s.past.lastTs
    ensures Accounted(Pop(s))
  {
    var t, d := Pop(s), s.pending[0];
    assert t.past.gone + t.pending == s.past.gone + s.pending;
    forall ts | ts in t.past.started ensures Among(t.past.gone + Front(t), ts, true) {
      AmongMore(s.past.gone + Front(s), t.past.gone + Front(t), ts, true);
    }
    forall ts | ts in t.past.handled ensures Among(t.past.gone + Front(t), ts, false) {
      AmongMore(s.past.gone + Front(s), t.past.gone + Front(t), ts, false);
    }
  }

  lemma BarrierAccounted(s: Owner, tp: Barrier, next: nat)
    requires Inv(s) && Accounted(s) && tp in s.barriers
    ensures Accounted(HandleBarrier(s, tp, next))
  {
    if tp.DdlJob? && s.pending != [] && FrontTs(s) == s.barriers[tp] && Blocked(s, s.barriers[tp]) {
      ExecAccounted(s);
      var (done, t) := ExecDdl(s, s.pending[0]);
      if done {
        QueueAfterExec(s, s.pending[0]);
        PopAccounted(t);
      }
    }
  }

  lemma ArrivalAccounted(s: Owner, d: Ddl)
    requires Inv(s) && Accounted(s) && Arrives(s, d)
    ensures Accounted(s.(pending := s.pending + [d], lastID := d.id, past := s.past.(lastTs := d.ts)))
  {
    var t := s.(pending := s.pending + [d], lastID := d.id, past := s.past.(lastTs := d.ts));
    var before := s.past.gone + s.pending;
    assert t.past.gone + t.pending == before + [d];
    forall i | 0 <= i < |before| ensures before[i].ts < d.ts {
      assert i >= |s.past.gone| ==> before[i] == s.pending[i - |s.past.gone|];
    }
    forall ts | ts in t.past.started ensures Among(t.past.gone + Front(t), ts, true) {
      AmongMore(s.past.gone + Front(s), t.past.gone + Front(t), ts, true);
    }
    forall ts | ts in t.past.handled ensures Among(t.past.gone + Front(t), ts, false) {
      AmongMore(s.past.gone + Front(s), t.past.gone + Front(t), ts, false);
    }
  }

  /** Nothing that is accounted for changes. */
  lemma SameAccount(s: Owner, t: Owner)
    requires Accounted(s) && t.pending == s.pending && t.past == s.past.(executed := t.past.executed)
    ensures Accounted(t)
  {
  }

  lemma StepAccounted(s: Owner, e: Event)
    requires Inv(s) && Accounted(s) && Enabled(s, e)
    ensures Accounted(Step(s, e))
  {
    match e
    case ReceiveDdl(d) => if d.id != s.lastID { ArrivalAccounted(s, d); }
    case Tick(tp, next, watermarks) =>
      BarrierAccounted(s, tp, next);
      SameAccount(HandleBarrier(s, tp, next), Step(s, e));
    case ReceiveResolved(_) => SameAccount(s, Step(s, e));
    case SinkTakes => SameAccount(s, Step(s, e));
    case SinkFinishes => SameAccount(s, Step(s, e));
  }

  lemma InitAccounted(s: Owner)
    requires IsInit(s)
    ensures Accounted(s)
  {
  }

  lemma {:induction false} RunAccounted(states: seq<Owner>, events: seq<Event>, k: nat)
    requires IsRun(states, events) && k <= |events|
    ensures Accounted(states[k])
  {
    if k == 0 {
      InitAccounted(states[0]);
    } else {
      var i := k - 1;
      RunAccounted(states, events, i);
      RunKeepsInv(states, events, i);
      assert Moves(states[i], events[i], states[i + 1]);
      StepAccounted(states[i], events[i]);
    }
  }

  /** Among DDLs in order, the timestamp tells which it is. */
  lemma TheOne(ds: seq<Ddl>, d: Ddl, executed: bool)
    requires InOrder(ds) && d in ds && Among(ds, d.ts, executed)
    ensures if executed then d.skip.No? else !d.skip.Cyclic?
  {
    var x :| x in ds && x.ts == d.ts && if executed then x.skip.No? else !x.skip.Cyclic?;
    var i :| 0 <= i < |ds| && ds[i] == x;
    var j :| 0 <= j < |ds| && ds[j] == d;
    SamePlace(ds, i, j);
  }

  lemma SamePlace(ds: seq<Ddl>, i: nat, j: nat)
    requires InOrder(ds) && i < |ds| && j < |ds| && ds[i].ts == ds[j].ts
    ensures i == j
  {
  }

  /** In every run: of the DDLs that left the queue, just those that are not to be skipped were
      executed downstream, and just those that are not skipped because of cyclic replication were
      applied to the schema. */
  lemma EveryDdlIsAccountedFor(states: seq<Owner>, events: seq<Event>)
    requires IsRun(states, events)
    ensures var s := states[|events|];
            forall d :: d in s.past.gone ==>
              && (d.ts in s.past.executed <==> d.skip.No?)
              && (d.ts in s.past.handled <==> !d.skip.Cyclic?)
  {
    RunAccounted(states, events, |events|);
    RunKeepsInv(states, events, |events|);
    var s := states[|events|];
    forall d | d in s.past.gone
      ensures (d.ts in s.past.executed <==> d.skip.No?) && (d.ts in s.past.handled <==> !d.skip.Cyclic?)
    {
      var all := s.past.gone + s.pending;
      if d.ts in s.past.executed {
        assert d.ts in s.past.started;
        AmongMore(s.past.gone + Front(s), all, d.ts, true);
        TheOne(all, d, true);
      }
      if d.ts in s.past.handled {
        AmongMore(s.past.gone + Front(s), all, d.ts, false);
        TheOne(all, d, false);
      }
    }
  }

  // ----- DDLs get executed -----

  /** The DDL at the front is due: its barrier is the least, and both watermarks stand at it. */
  predicate Due(s: Owner) {
    && s.pending != [] && DdlJob in s.barriers && IsMin(s.barriers, DdlJob)
    && s.barriers[DdlJob] == s.checkpointTs == s.resolvedTs == s.pending[0].ts
  }

  function NextTs(s: Owner): nat
    requires s.pending != []
  {
    if |s.pending| == 1 then s.pullerTs else s.pending[1].ts
  }

  /** A tick at which nothing is published. */
  const TICK: Event := Tick(DdlJob, 0, None)

  /** The DDL is off the queue, and the barrier has moved on to the next one or to what is resolved. */
  ghost predicate Off(s: Owner, t: Owner)
    requires s.pending != []
  {
    && t.pending == s.pending[1..] && t.past.gone == s.past.gone + [s.pending[0]]
    && t.barriers == s.barriers[DdlJob := NextTs(s)]
  }

  /** A DDL that is skipped is off the queue with one tick. */
  lemma SkippedGoes(s: Owner)
    requires Inv(s) && Due(s) && !s.pending[0].skip.No?
    ensures Enabled(s, TICK) && Off(s, Step(s, TICK)) && Step(s, TICK).past.started == s.past.started
  {
  }

  /** Any other is handed to the sink with one tick, unless that was done; and once the sink has
      executed it, it is off the queue with the next. */
  lemma DueIsHandedOver(s: Owner)
    requires Inv(s) && LastOk(s) && Due(s) && s.pending[0].skip.No? && s.sink.sentTs < s.pending[0].ts
    ensures Enabled(s, TICK)
    ensures var t := Step(s, TICK);
            && Due(t) && t.pending == s.pending && t.barriers == s.barriers && t.past.gone == s.past.gone
            && t.past.executed == s.past.executed && t.sink.chan == Some(s.pending[0]) && t.sink.running.None?
            && t.sink.sentTs == s.pending[0].ts
  {
    LastOfFirst(s.past.executed, s.past.started);
  }

  lemma ExecutedGoes(s: Owner)
    requires Inv(s) && Due(s) && s.pending[0].skip.No? && s.sink.finishedTs == s.pending[0].ts
    ensures Enabled(s, TICK) && Off(s, Step(s, TICK)) && Step(s, TICK).past.executed == s.past.executed
  {
  }

  lemma SinkRound(s: Owner)
    requires Inv(s) && s.sink.chan.Some? && s.sink.running.None?
    ensures Enabled(s, SinkTakes) && Enabled(Step(s, SinkTakes), SinkFinishes)
    ensures var (d, t) := (s.sink.chan.value, Step(Step(s, SinkTakes), SinkFinishes));
            && Inv(t) && t.past == s.past.(executed := s.past.executed + [d.ts]) && t.sink.finishedTs == d.ts
            && t == s.(sink := t.sink, past := t.past)
  {
    SinkTakesOk(s);
    SinkFinishesOk(Step(s, SinkTakes));
  }

  lemma HandedOverGetsDone(s: Owner)
    requires Inv(s) && Due(s) && s.pending[0].skip.No? && s.sink.chan == Some(s.pending[0]) && s.sink.running.None?
    ensures && Enabled(s, SinkTakes) && var t2 := Step(s, SinkTakes);
            && Enabled(t2, SinkFinishes) && var t3 := Step(t2, SinkFinishes);
            && Enabled(t3, TICK) && var t4 := Step(t3, TICK);
            && Off(s, t4) && t4.past.executed == s.past.executed + [s.pending[0].ts]
  {
    SinkRound(s);
    ExecutedGoes(Step(Step(s, SinkTakes), SinkFinishes));
  }

  /** From every state of a run in which the DDL at the front is due, it takes two ticks of the owner
      and one round of the sink until it is executed, off the queue, and the barrier has moved on. */
  lemma DueDdlGetsDone(states: seq<Owner>, events: seq<Event>)
    requires IsRun(states, events)
    requires var s := states[|events|]; Due(s) && s.pending[0].skip.No? && s.sink.sentTs < s.pending[0].ts
    ensures var s := states[|events|];
            && Enabled(s, TICK) && var t1 := Step(s, TICK);
            && Enabled(t1, SinkTakes) && var t2 := Step(t1, SinkTakes);
            && Enabled(t2, SinkFinishes) && var t3 := Step(t2, SinkFinishes);
            && Enabled(t3, TICK) && var t4 := Step(t3, TICK);
            && Off(s, t4) && t4.past.executed == s.past.executed + [s.pending[0].ts]
  {
    var s := states[|events|];
    RunLastOk(states, events, |events|);
    DueIsHandedOver(s);
    StepOk(s, TICK);
    HandedOverGetsDone(Step(s, TICK));
  }

  /** Until a DDL is due, its barrier keeps up with the front of the queue, or with what is resolved. */
  lemma BarrierKeepsUp(s: Owner, next: nat, watermarks: Option<(nat, nat)>)
    requires Inv(s) && IsMin(s.barriers, DdlJob) && (s.pending == [] || s.pending[0].ts != s.barriers[DdlJob])
    ensures var t := Step(s, Tick(DdlJob, next, watermarks));
            && t.pending == s.pending && t.past == s.past && t.sink == s.sink
            && var front := if s.pending == [] then s.pullerTs else s.pending[0].ts;
               t.barriers == s.barriers[DdlJob := Max(s.barriers[DdlJob], front)]
  {
    assert s.barriers[DdlJob := s.barriers[DdlJob]] == s.barriers;
  }

  /** A sync point moves on when both watermarks stand at it; the end of the feed stays. */
  lemma OtherBarriers(s: Owner, tp: Barrier, next: nat, watermarks: Option<(nat, nat)>)
    requires IsMin(s.barriers, tp) && !tp.DdlJob?
    ensures var t := Step(s, Tick(tp, next, watermarks));
            && t.pending == s.pending && t.past == s.past && t.sink == s.sink
            && t.barriers == if tp.SyncPoint? && s.barriers[tp] == s.checkpointTs == s.resolvedTs
                             then s.barriers[SyncPoint := next] else s.barriers
  {
  }
}
