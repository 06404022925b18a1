/** Barriers, DDL puller, DDL sink and changefeed as the objects whose fields the source
    updates, proved to move as the state machine of `OwnerDdlSpec`. */
module OwnerDdl {
  import opened OwnerDdlSpec

  predicate AnyBelowMax(barriers: map<Barrier, nat>) {
    exists b :: b in barriers && barriers[b] < MAX_UINT64
  }

  /** The least barrier is remembered until an update may have changed it. */
  class Barriers {
    var inner: map<Barrier, nat>
    var dirty: bool
    var min: Barrier

    ghost predicate Valid()
      reads this
    {
      && (forall b :: b in inner ==> inner[b] <= MAX_UINT64)
      && (!dirty ==> IsMin(inner, min))
    }

    constructor ()
      ensures Valid() && inner == map[]
    {
      inner, dirty, min := map[], true, DdlJob;
    }

    method Update(tp: Barrier, barrierTs: nat)
      requires Valid() && barrierTs <= MAX_UINT64
      modifies this
      ensures Valid() && inner == old(inner)[tp := barrierTs]
    {
      if !dirty && (tp == min || barrierTs <= inner[min]) {
        dirty := true;
      }
      inner := inner[tp := barrierTs];
    }

    method Remove(tp: Barrier)
      requires Valid()
      modifies this
      ensures Valid() && inner == old(inner) - {tp}
    {
      inner := inner - {tp};
      dirty := true;
    }

    /** `ok` is false, and the source panics, exactly if no barrier is below the largest timestamp. */
    method CalcMin() returns (ok: bool, tp: Barrier, barrierTs: nat)
      requires Valid()
      ensures ok <==> AnyBelowMax(inner)
      ensures ok ==> IsMin(inner, tp) && barrierTs == inner[tp]
    {
      tp, barrierTs := DdlJob, MAX_UINT64;
      var todo := inner.Keys;
      while todo != {}
        invariant todo <= inner.Keys && barrierTs <= MAX_UINT64
        invariant forall b :: b in inner && b !in todo ==> barrierTs <= inner[b]
        invariant barrierTs < MAX_UINT64 ==> tp in inner && inner[tp] == barrierTs
      {
        var br :| br in todo;
        if inner[br] <= barrierTs {
          tp := br;
          barrierTs := inner[br];
        }
        todo := todo - {br};
      }
      ok := barrierTs != MAX_UINT64;
    }

    /** The remembered minimum is the true one. */
    method Min() returns (ok: bool, tp: Barrier, barrierTs: nat)
      requires Valid()
      modifies this`dirty, this`min
      ensures Valid()
      ensures ok <==> AnyBelowMax(inner)
      ensures ok ==> IsMin(inner, tp) && barrierTs == inner[tp]
    {
      if !dirty {
        return true, min, inner[min];
      }
      ok, tp, barrierTs := CalcMin();
      if ok {
        min := tp;
        dirty := false;
      }
    }
  }

  class DdlPuller {
    var resolvedTS: nat
    var pendingDDLJobs: seq<Ddl>
    var lastDDLJobID: nat

    constructor (startTs: nat)
      ensures resolvedTS == startTs && pendingDDLJobs == [] && lastDDLJobID == 0
    {
      resolvedTS, pendingDDLJobs, lastDDLJobID := startTs, [], 0;
    }

    method ReceiveResolved(ts: nat)
      modifies this`resolvedTS
      ensures resolvedTS == if ts > old(resolvedTS) then ts else old(resolvedTS)
    {
      if ts > resolvedTS {
        resolvedTS := ts;
      }
    }

    /** A job is dropped if the filter discards it or if it repeats the last one. */
    method ReceiveDDL(job: Ddl, discard: bool) returns (taken: bool)
      modifies this`pendingDDLJobs, this`lastDDLJobID
      ensures taken <==> !discard && job.id != old(lastDDLJobID)
      ensures taken ==> pendingDDLJobs == old(pendingDDLJobs) + [job] && lastDDLJobID == job.id
      ensures !taken ==> pendingDDLJobs == old(pendingDDLJobs) && lastDDLJobID == old(lastDDLJobID)
    {
      if discard || job.id == lastDDLJobID {
        return false;
      }
      pendingDDLJobs := pendingDDLJobs + [job];
      lastDDLJobID := job.id;
      return true;
    }

    method FrontDDL() returns (ts: nat, job: Option<Ddl>)
      ensures if pendingDDLJobs == [] then ts == resolvedTS && job.None?
              else job == Some(pendingDDLJobs[0]) && ts == pendingDDLJobs[0].ts
    {
      if |pendingDDLJobs| == 0 {
        return resolvedTS, None;
      }
      return pendingDDLJobs[0].ts, Some(pendingDDLJobs[0]);
    }

    method PopFrontDDL()
      modifies this`pendingDDLJobs
      ensures pendingDDLJobs == if old(pendingDDLJobs) == [] then [] else old(pendingDDLJobs)[1..]
    {
      if |pendingDDLJobs| != 0 {
        pendingDDLJobs := pendingDDLJobs[1..];
      }
    }
  }

  class DdlSink {
    var ddlFinishedTs: nat
    var ddlSentTs: nat
    var ddlCh: Option<Ddl>
    var running: Option<Ddl>

    ghost function Abs(): Sink
      reads this
    {
      Sink(ddlSentTs, ddlFinishedTs, ddlCh, running)
    }

    constructor ()
      ensures Abs() == Sink(0, 0, None, None)
    {
      ddlFinishedTs, ddlSentTs, ddlCh, running := 0, 0, None, None;
    }

    /** Can be called again and again; the DDL goes into the channel once. */
    method EmitDDLEvent(ddl: Ddl) returns (done: bool)
      modifies this
      ensures done <==> ddl.ts <= old(ddlFinishedTs)
      ensures Abs() == if done || ddl.ts <= old(ddlSentTs) || old(ddlCh).Some? then old(Abs())
                       else old(Abs()).(sentTs := ddl.ts, chan := Some(ddl))
    {
      if ddl.ts <= ddlFinishedTs {
        return true;
      }
      if ddl.ts <= ddlSentTs {
        return false;
      }
      if ddlCh.None? {
        ddlCh := Some(ddl);
        ddlSentTs := ddl.ts;
      }
      return false;
    }

    /** The sink's own loop takes a DDL from the channel to execute it downstream. */
    method TakeDDL()
      requires running.None? && ddlCh.Some?
      modifies this
      ensures Abs() == old(Abs()).(running := old(ddlCh), chan := None)
    {
      running := ddlCh;
      ddlCh := None;
    }

    method FinishDDL()
      requires running.Some?
      modifies this
      ensures Abs() == old(Abs()).(running := None, finishedTs := old(running).value.ts)
    {
      ddlFinishedTs := running.value.ts;
      running := None;
    }
  }

  class Changefeed {
    const barriers: Barriers
    const ddlPuller: DdlPuller
    const sink: DdlSink
    var checkpointTs: nat
    var resolvedTs: nat
    var ddlEventCache: Option<nat>

    ghost var past: Past

    ghost predicate Valid()
      reads this, barriers
    {
      barriers.Valid() && DdlJob in barriers.inner
    }

    ghost function Abs(): Owner
      reads this, barriers, ddlPuller, sink
    {
      Owner(checkpointTs, resolvedTs, barriers.inner, ddlPuller.resolvedTS, ddlPuller.pendingDDLJobs,
            ddlPuller.lastDDLJobID, ddlEventCache, sink.Abs(), past)
    }

    /** Puller and DDL barrier start just before the checkpoint, so that a DDL at the checkpoint itself is seen. */
    constructor (checkpointTs: nat, resolvedTs: nat, targetTs: nat, syncPoint: bool)
      requires 0 < checkpointTs <= MAX_UINT64 && targetTs <= MAX_UINT64
      ensures Valid() && IsInit(Abs()) && this.checkpointTs == checkpointTs && this.resolvedTs == resolvedTs
      ensures barriers.inner == (if syncPoint then map[SyncPoint := checkpointTs]
                                 else map[])[DdlJob := checkpointTs - 1][Finish := targetTs]
    {
      var b := new Barriers();
      if syncPoint {
        b.Update(SyncPoint, checkpointTs);
      }
      b.Update(DdlJob, checkpointTs - 1);
      b.Update(Finish, targetTs);
      barriers := b;
      sink := new DdlSink();
      ddlPuller := new DdlPuller(checkpointTs - 1);
      this.checkpointTs, this.resolvedTs, ddlEventCache := checkpointTs, resolvedTs, None;
      past := Past(0, [], [], [], []);
    }

    // ----- What the puller and the sink do by themselves -----

    method ReceiveResolved(ts: nat)
      modifies ddlPuller
      ensures Abs() == Step(old(Abs()), OwnerDdlSpec.ReceiveResolved(ts)) && unchanged(barriers) && unchanged(sink)
    {
      ddlPuller.ReceiveResolved(ts);
    }

    /** A job that the filter does not discard, as upstream promises it. */
    method ReceiveDDL(job: Ddl)
      requires Enabled(Abs(), ReceiveDdl(job))
      modifies this`past, ddlPuller
      ensures Abs() == Step(old(Abs()), ReceiveDdl(job))
    {
      var taken := ddlPuller.ReceiveDDL(job, false);
      past := if taken then past.(lastTs := job.ts) else past;
    }

    method SinkTakesDDL()
      requires Enabled(Abs(), SinkTakes)
      modifies sink
      ensures Abs() == Step(old(Abs()), SinkTakes)
    {
      sink.TakeDDL();
    }

    method SinkFinishesDDL()
      requires Enabled(Abs(), SinkFinishes)
      modifies this`past, sink
      ensures Abs() == Step(old(Abs()), SinkFinishes)
    {
      past := past.(executed := past.executed + [sink.running.value.ts]);
      sink.FinishDDL();
    }

    // ----- A tick -----

    /** Applies the DDL to the owner's schema the first time, then skips it or hands it to the sink. */
    method AsyncExecDDL(job: Ddl) returns (done: bool)
      modifies this`ddlEventCache, this`past, sink
      ensures (done, Abs()) == ExecDdl(old(Abs()), job)
    {
      if job.skip.Cyclic? {
        return true;
      }
      if ddlEventCache.None? || ddlEventCache.value != job.ts {
        ddlEventCache := Some(job.ts);
        past := past.(handled := past.handled + [job.ts]);
      }
      if job.skip.Ineligible? {
        return true;
      }
      ghost var before := sink.Abs();
      done := sink.EmitDDLEvent(job);
      if done {
        ddlEventCache := None;
      }
      past := if sink.Abs() == before then past else past.(started := past.started + [job.ts]);
    }

    /** A DDL at the front that was executed or skipped leaves the queue, and the barrier moves on. */
    method HandleDdlBarrier(barrierTs: nat)
      requires Valid() && barrierTs == barriers.inner[DdlJob]
      requires ddlPuller.resolvedTS <= MAX_UINT64 && forall d :: d in ddlPuller.pendingDDLJobs ==> d.ts <= MAX_UINT64
      modifies this, barriers, ddlPuller, sink
      ensures Valid() && Abs() == HandleBarrier(old(Abs()), DdlJob, 0)
    {
      var blocked := barrierTs == checkpointTs && barrierTs == resolvedTs;
      var ddlResolvedTs, ddlJob := ddlPuller.FrontDDL();
      if ddlJob.None? || ddlResolvedTs != barrierTs {
        if ddlResolvedTs < barrierTs {
          return;
        }
        barriers.Update(DdlJob, ddlResolvedTs);
        return;
      }
      if !blocked {
        return;
      }
      var done := AsyncExecDDL(ddlJob.value);
      if !done {
        return;
      }
      past := past.(gone := past.gone + [ddlJob.value]);
      ddlPuller.PopFrontDDL();
      var newDDLResolvedTs, _ := ddlPuller.FrontDDL();
      barriers.Update(DdlJob, newDDLResolvedTs);
    }

    method HandleBarriers(nextSyncPoint: nat) returns (ok: bool, ghost tp: Barrier, barrierTs: nat)
      requires Valid() && nextSyncPoint <= MAX_UINT64
      requires ddlPuller.resolvedTS <= MAX_UINT64 && forall d :: d in ddlPuller.pendingDDLJobs ==> d.ts <= MAX_UINT64
      modifies this, barriers, ddlPuller, sink
      ensures ok <==> AnyBelowMax(old(barriers.inner))
      ensures ok ==> && Valid() && IsMin(old(barriers.inner), tp) && barrierTs == old(barriers.inner)[tp]
                     && Abs() == HandleBarrier(old(Abs()), tp, nextSyncPoint)
    {
      var kind;
      ok, kind, barrierTs := barriers.Min();
      tp := kind;
      if !ok {
        return;
      }
      match kind
      case DdlJob =>
        HandleDdlBarrier(barrierTs);
      case SyncPoint =>
        if barrierTs == checkpointTs && barrierTs == resolvedTs {
          barriers.Update(SyncPoint, nextSyncPoint);
        }
      case Finish =>
    }

    /** One tick is the tick of the state machine; without a barrier below the largest timestamp the source panics. */
    method Tick(nextSyncPoint: nat, watermarks: Option<(nat, nat)>) returns (ok: bool)
      requires Valid() && nextSyncPoint <= MAX_UINT64
      requires ddlPuller.resolvedTS <= MAX_UINT64 && forall d :: d in ddlPuller.pendingDDLJobs ==> d.ts <= MAX_UINT64
      modifies this, barriers, ddlPuller, sink
      ensures ok <==> AnyBelowMax(old(barriers.inner))
      ensures ok ==> Valid() && exists tp ::
                && IsMin(old(barriers.inner), tp) && Abs() == Ticked(old(Abs()), tp, nextSyncPoint, watermarks)
                && Publication(old(checkpointTs), old(resolvedTs), old(barriers.inner)[tp], watermarks,
                               checkpointTs, resolvedTs)
    {
      var before := checkpointTs;
      ghost var tp;
      var barrierTs;
      ok, tp, barrierTs := HandleBarriers(nextSyncPoint);
      if !ok || barrierTs < before {
        return;
      }
      if watermarks.Some? {
        var newCheckpointTs, newResolvedTs := watermarks.value.0, watermarks.value.1;
        if newResolvedTs > barrierTs {
          newResolvedTs := barrierTs;
        }
        if newCheckpointTs > barrierTs {
          newCheckpointTs := barrierTs;
        }
        checkpointTs, resolvedTs := newCheckpointTs, newResolvedTs;
      }
    }
  }
}
