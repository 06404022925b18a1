/** The owner's handling of DDLs as a state machine: the queue of received DDLs, the
    barriers, the published watermarks and the asynchronous sink. */
module OwnerDdlSpec {
  datatype Option<+T> = None | Some(value: T)

  const MAX_UINT64: nat := 0xFFFF_FFFF_FFFF_FFFF

  datatype Barrier = DdlJob | SyncPoint | Finish

  // Why the owner does not execute a DDL: cyclic replication without DDLs, or an ineligible table.
  datatype Skip = No | Cyclic | Ineligible

  datatype Ddl = Ddl(id: nat, ts: nat, skip: Skip)

  /** The sink's two marks, its channel of capacity one, and the DDL being executed. */
  datatype Sink = Sink(sentTs: nat, finishedTs: nat, chan: Option<Ddl>, running: Option<Ddl>)

  /** What happened so far: the timestamp of the last DDL received, the DDLs that left the queue,
      and the timestamps of those applied to the owner's schema, handed to the sink, and executed. */
  datatype Past = Past(lastTs: nat, gone: seq<Ddl>, handled: seq<nat>, started: seq<nat>, executed: seq<nat>)

  datatype Owner = Owner(
    checkpointTs: nat,
    resolvedTs: nat,
    barriers: map<Barrier, nat>,
    pullerTs: nat,
    pending: seq<Ddl>,
    lastID: nat,
    cache: Option<nat>,
    sink: Sink,
    past: Past)

  /** The feed starts from published watermarks; DDLs are pulled from just before the checkpoint. */
  predicate IsInit(s: Owner) {
    && s.checkpointTs > 0
    && DdlJob in s.barriers && s.barriers[DdlJob] == s.checkpointTs - 1
    && s.pullerTs == s.checkpointTs - 1 && s.pending == [] && s.cache.None?
    && s.sink == Sink(0, 0, None, None) && s.past == Past(0, [], [], [], [])
  }

  datatype Event =
    | ReceiveResolved(ts: nat)
    | ReceiveDdl(ddl: Ddl)
    | SinkTakes
    | SinkFinishes
    | Tick(tp: Barrier, nextSyncPoint: nat, watermarks: Option<(nat, nat)>)

  predicate IsMin(barriers: map<Barrier, nat>, tp: Barrier) {
    && tp in barriers && barriers[tp] < MAX_UINT64
    && forall b :: b in barriers ==> barriers[tp] <= barriers[b]
  }

  /** What upstream promises of a DDL that is not a repetition: it is later than every DDL and every
      resolved timestamp received before. */
  predicate Arrives(s: Owner, d: Ddl) {
    d.ts > s.pullerTs && d.ts > s.past.lastTs
  }

  predicate Enabled(s: Owner, e: Event) {
    match e
    case ReceiveResolved(_) => true
    case ReceiveDdl(d) => d.id == s.lastID || Arrives(s, d)
    case SinkTakes => s.sink.running.None? && s.sink.chan.Some?
    case SinkFinishes => s.sink.running.Some?
    case Tick(tp, _, _) => IsMin(s.barriers, tp)
  }

  function FrontTs(s: Owner): nat {
    if s.pending == [] then s.pullerTs else s.pending[0].ts
  }

  predicate Blocked(s: Owner, barrierTs: nat) {
    barrierTs == s.checkpointTs && barrierTs == s.resolvedTs
  }

  /** Hands the DDL to the sink unless that was done, and says whether it is executed. */
  function Emit(s: Owner, d: Ddl): (bool, Owner) {
    if d.ts <= s.sink.finishedTs then (true, s.(cache := None))
    else if d.ts <= s.sink.sentTs || s.sink.chan.Some? then (false, s)
    else (false, s.(sink := s.sink.(sentTs := d.ts, chan := Some(d)),
                    past := s.past.(started := s.past.started + [d.ts])))
  }

  /** The DDL is applied to the schema once; then it is skipped or handed to the sink. */
  function ExecDdl(s: Owner, d: Ddl): (bool, Owner) {
    if d.skip.Cyclic? then (true, s)
    else
      var t := if s.cache == Some(d.ts) then s
               else s.(cache := Some(d.ts), past := s.past.(handled := s.past.handled + [d.ts]));
      if d.skip.Ineligible? then (true, t) else Emit(t, d)
  }

  function Pop(s: Owner): Owner
    requires s.pending != []
  {
    s.(pending := s.pending[1..], past := s.past.(gone := s.past.gone + [s.pending[0]]))
  }

  function HandleBarrier(s: Owner, tp: Barrier, nextSyncPoint: nat): Owner
    requires tp in s.barriers
  {
    var barrierTs := s.barriers[tp];
    match tp
    case DdlJob =>
      if s.pending == [] || FrontTs(s) != barrierTs then
        if FrontTs(s) < barrierTs then s else s.(barriers := s.barriers[DdlJob := FrontTs(s)])
      else if !Blocked(s, barrierTs) then s
      else
        var (done, t) := ExecDdl(s, s.pending[0]);
        if !done || t.pending == [] then t
        else
          var u := Pop(t);
          u.(barriers := u.barriers[DdlJob := FrontTs(u)])
    case SyncPoint => if Blocked(s, barrierTs) then s.(barriers := s.barriers[SyncPoint := nextSyncPoint]) else s
    case Finish => s
  }

  function Min(a: nat, b: nat): nat { if a > b then b else a }

  /** One tick: the barrier first, then the watermarks of the scheduler, capped at the barrier. */
  function Ticked(s: Owner, tp: Barrier, nextSyncPoint: nat, watermarks: Option<(nat, nat)>): Owner
    requires tp in s.barriers
  {
    var barrierTs, t := s.barriers[tp], HandleBarrier(s, tp, nextSyncPoint);
    if barrierTs < s.checkpointTs || watermarks.None? then t
    else t.(checkpointTs := Min(watermarks.value.0, barrierTs), resolvedTs := Min(watermarks.value.1, barrierTs))
  }

  /** The watermark, or the barrier if it is above that. */
  predicate Capped(published: nat, watermark: nat, barrierTs: nat) {
    published <= watermark && published <= barrierTs && (published == watermark || published == barrierTs)
  }

  /** What a tick publishes: the checkpoint and the resolved timestamp of the scheduler, each capped at
      the barrier; nothing if there are none or the barrier is behind the checkpoint. */
  predicate Publication(checkpointTs: nat, resolvedTs: nat, barrierTs: nat, watermarks: Option<(nat, nat)>,
                        checkpointTs': nat, resolvedTs': nat) {
    match watermarks
    case Some((checkpoint, resolved)) =>
      if barrierTs >= checkpointTs
      then Capped(checkpointTs', checkpoint, barrierTs) && Capped(resolvedTs', resolved, barrierTs)
      else checkpointTs' == checkpointTs && resolvedTs' == resolvedTs
    case None => checkpointTs' == checkpointTs && resolvedTs' == resolvedTs
  }

  function Step(s: Owner, e: Event): Owner
    requires Enabled(s, e)
  {
    match e
    case ReceiveResolved(ts) => if ts > s.pullerTs then s.(pullerTs := ts) else s
    case ReceiveDdl(d) =>
      if d.id == s.lastID then s
      else s.(pending := s.pending + [d], lastID := d.id, past := s.past.(lastTs := d.ts))
    case SinkTakes => s.(sink := s.sink.(running := s.sink.chan, chan := None))
    case SinkFinishes =>
      var d := s.sink.running.value;
      s.(sink := s.sink.(running := None, finishedTs := d.ts), past := s.past.(executed := s.past.executed + [d.ts]))
    case Tick(tp, next, watermarks) => Ticked(s, tp, next, watermarks)
  }
}

/** What holds in every run of the owner. */
module OwnerDdlRuns {
  import opened OwnerDdlSpec

  // ----- The invariant -----

  ghost predicate Increasing(s: seq<nat>) {
    forall i, j :: 0 <= i < j < |s| ==> s[i] < s[j]
  }

  ghost predicate InOrder(pending: seq<Ddl>) {
    forall i, j :: 0 <= i < j < |pending| ==> pending[i].ts < pending[j].ts
  }

  function Max(a: nat, b: nat): nat { if a > b then a else b }

  /** Below every DDL in the queue, and below every one that can still arrive. */
  ghost predicate Below(ts: nat, s: Owner) {
    (forall i :: 0 <= i < |s.pending| ==> ts <= s.pending[i].ts) && ts <= Max(s.pullerTs, s.past.lastTs) + 1
  }

  ghost predicate QueueOk(s: Owner) {
    InOrder(s.pending) && forall i :: 0 <= i < |s.pending| ==> 0 < s.pending[i].ts <= s.past.lastTs
  }

  ghost predicate WatermarksOk(s: Owner) {
    DdlJob in s.barriers && Below(s.barriers[DdlJob], s) && Below(s.checkpointTs, s)
  }

  function Listed(o: Option<Ddl>): seq<nat> {
    if o.None? then [] else [o.value.ts]
  }

  function Last(s: seq<nat>): nat {
    if s == [] then 0 else s[|s| - 1]
  }

  /** Not later than the front of the queue, nor than anything received. */
  ghost predicate UpToFront(ts: nat, s: Owner) {
    ts <= s.past.lastTs && (s.pending != [] ==> ts <= s.pending[0].ts)
  }

  /** What was handed over was executed, is being executed or is in the channel, in this order. */
  ghost predicate SinkOk(s: Owner) {
    && s.past.started == s.past.executed + Listed(s.sink.running) + Listed(s.sink.chan)
    && Increasing(s.past.started)
    && s.sink.sentTs == Last(s.past.started) && s.sink.finishedTs == Last(s.past.executed)
    && UpToFront(s.sink.sentTs, s)
  }

  ghost predicate SchemaOk(s: Owner) {
    && Increasing(s.past.handled)
    && (s.past.handled != [] ==> UpToFront(Last(s.past.handled), s))
    && (s.pending != [] && s.past.handled != [] && Last(s.past.handled) == s.pending[0].ts ==>
          s.cache == Some(s.pending[0].ts))
    && (s.cache.Some? ==> s.past.handled != [] && s.cache.value == Last(s.past.handled))
  }

  /** A DDL leaves the queue only when it was executed or is to be skipped. */
  ghost predicate GoneOk(s: Owner) {
    forall d :: d in s.past.gone ==> !d.skip.No? || d.ts in s.past.executed
  }

  ghost predicate Inv(s: Owner) {
    QueueOk(s) && WatermarksOk(s) && SinkOk(s) && SchemaOk(s) && GoneOk(s)
  }

  lemma InitInv(s: Owner)
    requires IsInit(s)
    ensures Inv(s)
  {
  }

  // ----- Steps of the environment -----

  lemma IncreasingSnoc(s: seq<nat>, x: nat)
    requires Increasing(s) && (s == [] || Last(s) < x)
    ensures Increasing(s + [x]) && Last(s + [x]) == x
  {
    forall i, j | 0 <= i < j < |s + [x]| ensures (s + [x])[i] < (s + [x])[j] {
      assert i < |s| - 1 ==> s[i] < s[|s| - 1];
    }
  }

  lemma ReceiveResolvedOk(s: Owner, ts: nat)
    requires Inv(s) && ts > s.pullerTs
    ensures Inv(s.(pullerTs := ts))
  {
  }

  lemma ReceiveDdlOk(s: Owner, d: Ddl)
    requires Inv(s) && Arrives(s, d)
    ensures Inv(s.(pending := s.pending + [d], lastID := d.id, past := s.past.(lastTs := d.ts)))
  {
  }

  lemma SinkTakesOk(s: Owner)
    requires Inv(s) && Enabled(s, SinkTakes)
    ensures Inv(Step(s, SinkTakes))
  {
  }

  lemma SinkFinishesOk(s: Owner)
    requires Inv(s) && Enabled(s, SinkFinishes)
    ensures Inv(Step(s, SinkFinishes))
  {
    var t := s.sink.running.value.ts;
    assert s.past.executed + [t] + Listed(s.sink.chan)
           == s.past.executed + Listed(s.sink.running) + Listed(s.sink.chan);
  }

  // ----- A tick -----

  /** The barrier of the DDL goes up to the front of the queue. */
  lemma RaiseOk(s: Owner)
    requires Inv(s)
    ensures Inv(s.(barriers := s.barriers[DdlJob := FrontTs(s)]))
  {
  }

  lemma LastOfPrefix(a: seq<nat>, b: seq<nat>)
    requires Increasing(b) && a <= b
    ensures Last(a) <= Last(b)
  {
  }

  lemma EmitOk(s: Owner, d: Ddl)
    requires Inv(s) && s.pending != [] && d == s.pending[0] && s.cache == Some(d.ts)
    ensures var (done, t) := Emit(s, d);
            && QueueOk(t) && WatermarksOk(t) && SinkOk(t) && GoneOk(t) && t.pending == s.pending
            && (!done ==> SchemaOk(t))
            && (done ==> d.ts in t.past.executed && t.cache.None? && t == s.(cache := None))
  {
    if d.ts <= s.sink.finishedTs {
      LastOfPrefix(s.past.executed, s.past.started);
      assert s.past.executed[|s.past.executed| - 1] == d.ts;
    } else if d.ts > s.sink.sentTs && s.sink.chan.None? {
      IncreasingSnoc(s.past.started, d.ts);
    }
  }

  lemma HandledOk(s: Owner, d: Ddl)
    requires Inv(s) && s.pending != [] && d == s.pending[0] && s.cache != Some(d.ts)
    ensures Inv(s.(cache := Some(d.ts), past := s.past.(handled := s.past.handled + [d.ts])))
  {
    IncreasingSnoc(s.past.handled, d.ts);
  }

  /** After execution or a skip the queue moves on, and the barrier with it. */
  lemma PopOk(s: Owner)
    requires QueueOk(s) && WatermarksOk(s) && SinkOk(s) && GoneOk(s) && s.pending != []
    requires Increasing(s.past.handled) && (s.past.handled != [] ==> UpToFront(Last(s.past.handled), s))
    requires s.cache.Some? ==> s.past.handled != [] && s.cache.value == Last(s.past.handled)
    requires !s.pending[0].skip.No? || s.pending[0].ts in s.past.executed
    ensures var u := Pop(s); Inv(u.(barriers := u.barriers[DdlJob := FrontTs(u)]))
  {
  }

  lemma ExecOk(s: Owner)
    requires Inv(s) && s.pending != []
    ensures var (done, t) := ExecDdl(s, s.pending[0]);
            && t.pending == s.pending && t.checkpointTs == s.checkpointTs && t.resolvedTs == s.resolvedTs
            && (!done ==> Inv(t))
            && (done ==> var u := Pop(t); Inv(u.(barriers := u.barriers[DdlJob := FrontTs(u)])))
  {
    var d := s.pending[0];
    if d.skip.Cyclic? {
      PopOk(s);
    } else {
      var t := s;
      if s.cache != Some(d.ts) {
        HandledOk(s, d);
        t := s.(cache := Some(d.ts), past := s.past.(handled := s.past.handled + [d.ts]));
      }
      if d.skip.Ineligible? {
        PopOk(t);
      } else {
        EmitOk(t, d);
        var (done, u) := Emit(t, d);
        if done {
          PopOk(u);
        }
      }
    }
  }

  lemma HandleBarrierOk(s: Owner, tp: Barrier, next: nat)
    requires Inv(s) && IsMin(s.barriers, tp)
    ensures Inv(HandleBarrier(s, tp, next))
  {
    if tp.DdlJob? {
      if s.pending == [] || FrontTs(s) != s.barriers[tp] {
        RaiseOk(s);
      } else {
        ExecOk(s);
      }
    }
  }

  /** Handling a barrier leaves the queue as it is, or takes its first DDL off. */
  lemma QueueAfterBarrier(s: Owner, tp: Barrier, next: nat)
    requires tp in s.barriers
    ensures var t := HandleBarrier(s, tp, next);
            && t.pullerTs == s.pullerTs && t.past.lastTs == s.past.lastTs
            && t.checkpointTs == s.checkpointTs && t.resolvedTs == s.resolvedTs
            && (t.pending == s.pending || (s.pending != [] && t.pending == s.pending[1..]))
  {
    if tp.DdlJob? && s.pending != [] {
      QueueAfterExec(s, s.pending[0]);
    }
  }

  lemma QueueAfterExec(s: Owner, d: Ddl)
    ensures var t := ExecDdl(s, d).1;
            && t.pullerTs == s.pullerTs && t.past.lastTs == s.past.lastTs && t.pending == s.pending
            && t.checkpointTs == s.checkpointTs && t.resolvedTs == s.resolvedTs
  {
  }

  /** With fewer DDLs in the queue, what was below them all still is. */
  lemma BelowStays(ts: nat, s: Owner, t: Owner)
    requires Below(ts, s) && t.pullerTs == s.pullerTs && t.past.lastTs == s.past.lastTs
    requires t.pending == s.pending || (s.pending != [] && t.pending == s.pending[1..])
    ensures Below(ts, t)
  {
  }

  /** The barrier was below everything not executed, and it still is. */
  lemma BarrierStaysBelow(s: Owner, tp: Barrier, next: nat)
    requires Inv(s) && IsMin(s.barriers, tp)
    ensures Below(s.barriers[tp], HandleBarrier(s, tp, next))
  {
    QueueAfterBarrier(s, tp, next);
    BelowStays(s.barriers[tp], s, HandleBarrier(s, tp, next));
  }

  lemma TickOk(s: Owner, tp: Barrier, next: nat, watermarks: Option<(nat, nat)>)
    requires Inv(s) && IsMin(s.barriers, tp)
    ensures Inv(Ticked(s, tp, next, watermarks))
  {
    HandleBarrierOk(s, tp, next);
    BarrierStaysBelow(s, tp, next);
  }

  lemma StepOk(s: Owner, e: Event)
    requires Inv(s) && Enabled(s, e)
    ensures Inv(Step(s, e))
  {
    match e
    case ReceiveResolved(ts) => if ts > s.pullerTs { ReceiveResolvedOk(s, ts); }
    case ReceiveDdl(d) => if d.id != s.lastID { ReceiveDdlOk(s, d); }
    case SinkTakes => SinkTakesOk(s);
    case SinkFinishes => SinkFinishesOk(s);
    case Tick(tp, next, watermarks) => TickOk(s, tp, next, watermarks);
  }

  // ----- The published resolved timestamp -----

  /** The tick gets as far as publishing watermarks. */
  predicate Publishes(s: Owner, e: Event) {
    e.Tick? && e.tp in s.barriers && e.watermarks.Some? && s.barriers[e.tp] >= s.checkpointTs
  }

  /** What a tick publishes is capped at the barrier; until then the timestamp stays. */
  lemma ResolvedStep(s: Owner, e: Event)
    requires Inv(s) && Enabled(s, e)
    ensures Publishes(s, e) || Below(s.resolvedTs, s) ==> Below(Step(s, e).resolvedTs, Step(s, e))
    ensures !Publishes(s, e) ==> Step(s, e).resolvedTs == s.resolvedTs
  {
    if e.Tick? {
      BarrierStaysBelow(s, e.tp, e.nextSyncPoint);
      QueueAfterBarrier(s, e.tp, e.nextSyncPoint);
      if Below(s.resolvedTs, s) {
        BelowStays(s.resolvedTs, s, HandleBarrier(s, e.tp, e.nextSyncPoint));
      }
    }
  }

  // ----- Runs -----

  ghost predicate Moves(s: Owner, e: Event, s': Owner) {
    Enabled(s, e) && s' == Step(s, e)
  }

  ghost predicate IsRun(states: seq<Owner>, events: seq<Event>) {
    && |states| == |events| + 1 && IsInit(states[0])
    && forall i {:trigger Moves(states[i], events[i], states[i + 1])} ::
         0 <= i < |events| ==> Moves(states[i], events[i], states[i + 1])
  }

  lemma {:induction false} RunKeepsInv(states: seq<Owner>, events: seq<Event>, k: nat)
    requires IsRun(states, events) && k <= |events|
    ensures Inv(states[k])
  {
    if k == 0 {
      InitInv(states[0]);
    } else {
      RunKeepsInv(states, events, k - 1);
      var i := k - 1;
      assert Moves(states[i], events[i], states[i + 1]);
      StepOk(states[i], events[i]);
    }
  }

  /** Not above any DDL that is not executed, be it received or still to arrive. */
  ghost predicate NotAbove(ts: nat, s: Owner) {
    && (forall i :: 0 <= i < |s.pending| ==> ts <= s.pending[i].ts)
    && (forall d :: Arrives(s, d) ==> ts <= d.ts)
  }

  /** In every run: the published checkpoint is not above the timestamp of any DDL that is not
      executed, be it received or still to arrive; what left the queue was executed or skipped;
      DDLs are handed to the sink, executed, and applied to the schema in increasing order, each
      at most once. */
  lemma EveryRunIsSafe(states: seq<Owner>, events: seq<Event>)
    requires IsRun(states, events)
    ensures var s := states[|events|];
            && NotAbove(s.checkpointTs, s)
            && (forall d :: d in s.past.gone ==> !d.skip.No? || d.ts in s.past.executed)
            && Increasing(s.past.started) && s.past.executed <= s.past.started && Increasing(s.past.handled)
  {
    RunKeepsInv(states, events, |events|);
  }

  /** Some tick of the first `k` events published watermarks. */
  ghost predicate Published(states: seq<Owner>, events: seq<Event>, k: nat)
    requires k <= |events| < |states|
  {
    exists i :: 0 <= i < k && Publishes(states[i], events[i])
  }

  lemma {:induction false} ResolvedUpTo(states: seq<Owner>, events: seq<Event>, k: nat)
    requires IsRun(states, events) && k <= |events|
    ensures Published(states, events, k) || states[0].resolvedTs <= states[0].checkpointTs ==>
              Below(states[k].resolvedTs, states[k])
    ensures !Published(states, events, k) ==> states[k].resolvedTs == states[0].resolvedTs
  {
    if k > 0 {
      var i := k - 1;
      ResolvedUpTo(states, events, i);
      RunKeepsInv(states, events, i);
      assert Moves(states[i], events[i], states[i + 1]);
      ResolvedStep(states[i], events[i]);
      if Publishes(states[i], events[i]) {
        assert Published(states, events, k);
      }
    }
  }

  ghost predicate NotAboveQueue(ts: nat, s: Owner) {
    forall i :: 0 <= i < |s.pending| ==> ts <= s.pending[i].ts
  }

  /** The resolved timestamp is not above any DDL that is not executed either, once a tick has
      published it. Before that it is the one the feed started with, and it is above the first DDL
      in the queue exactly if that is. */
  lemma ResolvedIsSafe(states: seq<Owner>, events: seq<Event>)
    requires IsRun(states, events)
    ensures var s := states[|events|];
            if Published(states, events, |events|) || states[0].resolvedTs <= states[0].checkpointTs
            then NotAbove(s.resolvedTs, s)
            else
              && s.resolvedTs == states[0].resolvedTs
              && (NotAboveQueue(s.resolvedTs, s) <==>
                  s.pending == [] || states[0].resolvedTs <= s.pending[0].ts)
  {
    ResolvedUpTo(states, events, |events|);
    RunKeepsInv(states, events, |events|);
  }

  /** It is so in all runs of a feed exactly if the feed starts with the resolved timestamp not above
      the checkpoint: otherwise the DDL at the checkpoint, which is pulled again, is below it. */
  lemma ResolvedIsSafeExactly(start: Owner)
    requires IsInit(start)
    ensures (forall states: seq<Owner>, events :: IsRun(states, events) && states[0] == start ==>
               NotAboveQueue(states[|events|].resolvedTs, states[|events|]))
            <==> start.resolvedTs <= start.checkpointTs
  {
    if start.resolvedTs <= start.checkpointTs {
      forall states: seq<Owner>, events | IsRun(states, events) && states[0] == start
        ensures NotAboveQueue(states[|events|].resolvedTs, states[|events|])
      {
        ResolvedIsSafe(states, events);
      }
    } else {
      var d := Ddl(start.lastID + 1, start.checkpointTs, No);
      var e := ReceiveDdl(d);
      var states, events := [start, Step(start, e)], [e];
      assert Moves(states[0], events[0], states[1]);
      assert IsRun(states, events);
      assert states[|events|].pending[0] == d;
    }
  }

  /** A feed that restarts at checkpoint 10 with 20 published as resolved, and pulls the DDL at 10. */
  lemma RestartedFeed()
    ensures exists states: seq<Owner>, events: seq<Event> ::
              && IsRun(states, events) && states[0].checkpointTs == 10 && states[0].resolvedTs == 20
              && events == [ReceiveDdl(Ddl(1, 10, No))]
              && !NotAboveQueue(states[1].resolvedTs, states[1])
  {
    var sink, past := Sink(0, 0, None, None), Past(0, [], [], [], []);
    var start := Owner(10, 20, map[DdlJob := 9], 9, [], 0, None, sink, past);
    var e := ReceiveDdl(Ddl(1, 10, No));
    var states, events := [start, Step(start, e)], [e];
    assert Moves(states[0], events[0], states[1]);
    assert IsRun(states, events);
    assert states[1].pending[0] == e.ddl;
  }

  // ----- One DDL at a time -----

  /** What was handed over last is executed, or it is the DDL at the front. */
  ghost predicate LastOk(s: Owner) {
    && (s.past.started != [] ==> s.past.started[0] > 0)
    && (|| s.sink.sentTs == s.sink.finishedTs
        || (s.pending != [] && s.pending[0].ts == s.sink.sentTs && s.pending[0].skip.No?))
  }

  /** Of the handed over, the executed come first. */
  lemma LastOfFirst(a: seq<nat>, b: seq<nat>)
    requires a <= b && Increasing(b) && (b != [] ==> b[0] > 0)
    ensures Last(a) <= Last(b) && (Last(a) == Last(b) ==> a == b)
  {
    if |a| < |b| {
      assert b[0] <= Last(b);
      assert a != [] ==> Last(a) == b[|a| - 1] < b[|b| - 1];
    }
  }

  lemma LastOkEmit(s: Owner, d: Ddl)
    requires Inv(s) && LastOk(s) && s.pending != [] && d == s.pending[0]
    ensures var (done, t) := ExecDdl(s, d); EmittedOk(s, done, t)
  {
    LastOfFirst(s.past.executed, s.past.started);
  }

  ghost predicate EmittedOk(s: Owner, done: bool, t: Owner) {
    t.pending == s.pending && LastOk(t) && (done ==> t.sink.sentTs == t.sink.finishedTs)
  }

  lemma LastOkBarrier(s: Owner, tp: Barrier, next: nat)
    requires LastOk(s) && tp in s.barriers
    requires s.pending != [] ==> var (done, t) := ExecDdl(s, s.pending[0]); EmittedOk(s, done, t)
    ensures LastOk(HandleBarrier(s, tp, next))
  {
  }

  lemma LastOkTick(s: Owner, tp: Barrier, next: nat, watermarks: Option<(nat, nat)>)
    requires tp in s.barriers && LastOk(HandleBarrier(s, tp, next))
    ensures LastOk(Ticked(s, tp, next, watermarks))
  {
  }

  lemma LastOkFinish(s: Owner)
    requires Inv(s) && LastOk(s) && Enabled(s, SinkFinishes)
    ensures LastOk(Step(s, SinkFinishes))
  {
    LastOfFirst(s.past.executed, s.past.started);
    assert |s.past.started| > |s.past.executed|;
  }

  lemma LastOkOther(s: Owner, e: Event)
    requires LastOk(s) && Enabled(s, e) && !e.Tick? && !e.SinkFinishes?
    ensures LastOk(Step(s, e))
  {
  }

  lemma LastOkStep(s: Owner, e: Event)
    requires Inv(s) && LastOk(s) && Enabled(s, e)
    ensures LastOk(Step(s, e))
  {
    if e.Tick? {
      if s.pending != [] {
        LastOkEmit(s, s.pending[0]);
      }
      LastOkBarrier(s, e.tp, e.nextSyncPoint);
      LastOkTick(s, e.tp, e.nextSyncPoint, e.watermarks);
    } else if e.SinkFinishes? {
      LastOkFinish(s);
    } else {
      LastOkOther(s, e);
    }
  }

  lemma {:induction false} RunLastOk(states: seq<Owner>, events: seq<Event>, k: nat)
    requires IsRun(states, events) && k <= |events|
    ensures Inv(states[k]) && LastOk(states[k])
  {
    RunKeepsInv(states, events, k);
    if k > 0 {
      var i := k - 1;
      RunLastOk(states, events, i);
      assert Moves(states[i], events[i], states[i + 1]);
      LastOkStep(states[i], events[i]);
    }
  }

  lemma StartsWhenBlocked(s: Owner, e: Event)
    requires Enabled(s, e) && Step(s, e).past.started != s.past.started
    ensures s.pending != [] && Step(s, e).past.started == s.past.started + [s.pending[0].ts]
    ensures s.checkpointTs == s.resolvedTs == s.pending[0].ts > s.sink.sentTs
  {
  }

  /** In every run, when a DDL is handed to the sink both published watermarks stand at its
      timestamp, it is the first in the queue, and all DDLs handed over before are executed. */
  lemma OneDdlAtATime(states: seq<Owner>, events: seq<Event>, i: nat)
    requires IsRun(states, events) && i < |events| && states[i + 1].past.started != states[i].past.started
    ensures var s := states[i];
            && s.pending != [] && states[i + 1].past.started == s.past.started + [s.pending[0].ts]
            && s.checkpointTs == s.resolvedTs == s.pending[0].ts
            && s.past.executed == s.past.started
  {
    RunLastOk(states, events, i);
    assert Moves(states[i], events[i], states[i + 1]);
    StartsWhenBlocked(states[i], events[i]);
    LastOfFirst(states[i].past.executed, states[i].past.started);
  }
}
