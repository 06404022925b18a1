/** To which worker a transaction goes, said from the transactions dispatched before it. */
module SinkDispatch {
  import opened SinkTypes
  import opened SinkConcurrency

  predicate Shares(a: Assigned, job: Job) {
    a.job.keys * job.keys != {}
  }

  /** The conflict map knows just the keys of the transactions dispatched, each by the worker it went to. */
  ghost predicate Tracks<DB>(s: Sink<DB>, since: seq<Assigned>) {
    && (forall a, k :: a in since && k in a.job.keys ==> k in s.relations && s.relations[k] == a.worker)
    && (forall k :: k in s.relations ==> exists a :: a in since && k in a.job.keys)
  }

  /** The next transaction goes to the worker, and nothing else happens. */
  ghost predicate GoesTo<DB>(s: Sink<DB>, s': Sink<DB>, i: nat) {
    && s.todo != [] && i < |s.workers| && s'.todo == s.todo[1..] && s'.phase.Dispatching?
    && s'.workers == s.workers[i := s.workers[i].(chan := s.workers[i].chan + [Data(s.todo[0])])]
  }

  ghost predicate Longer<DB>(s: Sink<DB>, s': Sink<DB>, i: nat) {
    i < |s.workers| && i < |s'.workers| && |s'.workers[i].chan| > |s.workers[i].chan|
  }

  /** The worker that was handed something. */
  ghost function Taker<DB>(s: Sink<DB>, s': Sink<DB>): nat {
    if i: nat :| Longer(s, s', i) then i else 0
  }

  lemma TakerIs<DB>(s: Sink<DB>, s': Sink<DB>, i: nat)
    requires GoesTo(s, s', i)
    ensures Taker(s, s') == i
  {
    assert Longer(s, s', i);
  }

  ghost function Next<DB>(s: Sink<DB>, e: Event, s': Sink<DB>, since: seq<Assigned>): seq<Assigned> {
    (if e.Resume? then [] else since)
    + if s.todo == [] || |s'.todo| >= |s.todo| then [] else [Assigned(s.todo[0], Taker(s, s'))]
  }

  /** The transactions dispatched since the last barrier, and where they went. */
  ghost function Since<DB>(states: seq<Sink<DB>>, events: seq<Event>, n: nat): seq<Assigned>
    requires n <= |events| && |states| == |events| + 1
  {
    if n == 0 then [] else Next(states[n - 1], events[n - 1], states[n], Since(states, events, n - 1))
  }

  lemma SentTracks<DB>(s: Sink<DB>, since: seq<Assigned>, i: nat)
    requires Tracks(s, since) && s.todo != [] && i < |s.workers|
    requires forall k :: k in s.todo[0].keys && k in s.relations ==> s.relations[k] == i
    ensures Tracks(Sent(s, i), since + [Assigned(s.todo[0], i)])
  {
    var s', since' := Sent(s, i), since + [Assigned(s.todo[0], i)];
    assert since'[|since|] == Assigned(s.todo[0], i);
    forall k | k in s'.relations ensures exists a :: a in since' && k in a.job.keys {
      if k in s.todo[0].keys {
        assert since'[|since|].job.keys == s.todo[0].keys;
      } else {
        var a :| a in since && k in a.job.keys;
        assert a in since';
      }
    }
  }

  /** What a dispatch does, by the conflict map. */
  lemma DispatchTracks<DB>(s: Sink<DB>, since: seq<Assigned>)
    requires ShapeOk(s) && s.phase.Dispatching? && Tracks(s, since)
    ensures var s' := Dispatched(s);
            if s'.todo == s.todo then Tracks(s', since)
            else GoesTo(s, s', Taker(s, s')) && Tracks(s', since + [Assigned(s.todo[0], Taker(s, s'))])
  {
    var s' := Dispatched(s);
    if s.todo != [] {
      var keys := s.todo[0].keys;
      if Free(s.relations, keys) {
        SentTracks(s, since, s.next);
        TakerIs(s, s', s.next);
      } else if !Clash(s.relations, keys) {
        var k :| k in keys && k in s.relations && s' == Sent(s, s.relations[k]);
        SentTracks(s, since, s.relations[k]);
        TakerIs(s, s', s.relations[k]);
      }
    }
  }

  lemma ResumeTracks<DB>(s: Sink<DB>)
    requires ShapeOk(s)
    ensures var s' := Resumed(s);
            if s.todo == [] then s'.todo == [] && Tracks(s', [])
            else GoesTo(s, s', Taker(s, s')) && Tracks(s', [Assigned(s.todo[0], Taker(s, s'))])
  {
    if s.todo != [] {
      var r := s.(relations := map[], phase := Dispatching);
      SentTracks(r, [], r.next);
      assert [] + [Assigned(s.todo[0], s.next)] == [Assigned(s.todo[0], s.next)];
      TakerIs(s, Resumed(s), s.next);
    }
  }

  lemma StepTracks<DB>(apply: (DB, Row) -> DB, s: Sink<DB>, e: Event, s': Sink<DB>, since: seq<Assigned>,
                       maxTxnRow: nat)
    requires Moves(apply, s, e, s', maxTxnRow) && Tracks(s, since)
    ensures Tracks(s', Next(s, e, s', since))
  {
    if e.Dispatch? {
      DispatchTracks(s, since);
    } else if e.Resume? {
      ResumeTracks(s);
    }
    assert since + [] == since;
    if s.todo != [] {
      var one := [Assigned(s.todo[0], Taker(s, s'))];
      assert [] + one == one;
    }
  }

  /** The conflict map is what the transactions since the last barrier have left. */
  lemma {:induction false} MapIsHistory<DB>(apply: (DB, Row) -> DB, db: DB, order: seq<Job>, nWorkers: nat,
                                            states: seq<Sink<DB>>, events: seq<Event>, maxTxnRow: nat, n: nat)
    requires IsRun(apply, states, events, maxTxnRow) && states[0] == Start(db, order, nWorkers) && n <= |events|
    ensures Tracks(states[n], Since(states, events, n))
  {
    if n > 0 {
      MapIsHistory(apply, db, order, nWorkers, states, events, maxTxnRow, n - 1);
      assert Moves(apply, states[n - 1], events[n - 1], states[n - 1 + 1], maxTxnRow);
      StepTracks(apply, states[n - 1], events[n - 1], states[n], Since(states, events, n - 1), maxTxnRow);
    }
  }

  lemma SharesKnown<DB>(s: Sink<DB>, since: seq<Assigned>, k: Bytes)
    requires Tracks(s, since) && s.todo != [] && k in s.todo[0].keys && k in s.relations
    ensures exists a :: a in since && Shares(a, s.todo[0]) && a.worker == s.relations[k]
  {
    var a :| a in since && k in a.job.keys;
    assert k in a.job.keys * s.todo[0].keys;
  }

  lemma SharedKey<DB>(s: Sink<DB>, since: seq<Assigned>, a: Assigned) returns (k: Bytes)
    requires Tracks(s, since) && s.todo != [] && a in since && Shares(a, s.todo[0])
    ensures k in s.todo[0].keys && k in s.relations && s.relations[k] == a.worker
  {
    k :| k in a.job.keys * s.todo[0].keys;
  }

  ghost predicate NoneShares(since: seq<Assigned>, job: Job) {
    forall a :: a in since ==> !Shares(a, job)
  }

  ghost predicate SharesOnly(since: seq<Assigned>, job: Job, i: nat) {
    && (exists a :: a in since && Shares(a, job))
    && (forall a :: a in since && Shares(a, job) ==> a.worker == i)
  }

  ghost predicate Torn(since: seq<Assigned>, job: Job) {
    exists a, b :: a in since && b in since && Shares(a, job) && Shares(b, job) && a.worker != b.worker
  }

  /** A transaction that shares no key with those dispatched before goes to the worker whose turn it is; one
      that shares keys with those of a single worker goes there; otherwise, and only then, there is a barrier. */
  ghost predicate GoesRight<DB>(s: Sink<DB>, s': Sink<DB>, since: seq<Assigned>)
    requires s.todo != []
  {
    && (NoneShares(since, s.todo[0]) ==> |s.workers| > 0 && GoesTo(s, s', s.next)
                                         && s'.next == (s.next + 1) % |s.workers|)
    && (forall i :: SharesOnly(since, s.todo[0], i) ==> GoesTo(s, s', i) && s'.next == s.next)
    && (Torn(since, s.todo[0]) <==> s' == s.(phase := Broadcasting(0)))
  }

  lemma FreeChoice<DB>(s: Sink<DB>, since: seq<Assigned>)
    requires ShapeOk(s) && s.phase.Dispatching? && s.todo != [] && Tracks(s, since)
    requires Free(s.relations, s.todo[0].keys)
    ensures GoesRight(s, Dispatched(s), since)
  {
    forall a | a in since ensures !Shares(a, s.todo[0]) {
      if Shares(a, s.todo[0]) {
        var k := SharedKey(s, since, a);
      }
    }
    assert |Dispatched(s).todo| < |s.todo|;
  }

  lemma TornChoice<DB>(s: Sink<DB>, since: seq<Assigned>)
    requires ShapeOk(s) && s.phase.Dispatching? && s.todo != [] && Tracks(s, since)
    requires Clash(s.relations, s.todo[0].keys)
    ensures GoesRight(s, Dispatched(s), since)
  {
    var keys := s.todo[0].keys;
    var k, l :| k in keys && l in keys && k in s.relations && l in s.relations && s.relations[k] != s.relations[l];
    SharesKnown(s, since, k);
    SharesKnown(s, since, l);
  }

  lemma BoundChoice<DB>(s: Sink<DB>, since: seq<Assigned>, k: Bytes)
    requires ShapeOk(s) && s.phase.Dispatching? && s.todo != [] && Tracks(s, since)
    requires k in s.todo[0].keys && k in s.relations && !Clash(s.relations, s.todo[0].keys)
    ensures GoesRight(s, Sent(s, s.relations[k]), since)
  {
    SharesKnown(s, since, k);
    forall a | a in since && Shares(a, s.todo[0]) ensures a.worker == s.relations[k] {
      var l := SharedKey(s, since, a);
    }
    assert |Sent(s, s.relations[k]).todo| < |s.todo|;
  }

  lemma DispatchChoice<DB>(s: Sink<DB>, since: seq<Assigned>)
    requires ShapeOk(s) && s.phase.Dispatching? && s.todo != [] && Tracks(s, since)
    ensures GoesRight(s, Dispatched(s), since)
  {
    var keys := s.todo[0].keys;
    if Free(s.relations, keys) {
      FreeChoice(s, since);
    } else if Clash(s.relations, keys) {
      TornChoice(s, since);
    } else {
      var k :| k in keys && k in s.relations && Dispatched(s) == Sent(s, s.relations[k]);
      BoundChoice(s, since, k);
    }
  }

  lemma DispatchIs<DB>(apply: (DB, Row) -> DB, s: Sink<DB>, s': Sink<DB>, maxTxnRow: nat)
    requires Moves(apply, s, Dispatch, s', maxTxnRow)
    ensures ShapeOk(s) && s.phase.Dispatching? && s' == Dispatched(s)
  {
  }

  /** In every run every transaction goes by those dispatched since the last barrier. */
  lemma GoesByHistory<DB>(apply: (DB, Row) -> DB, db: DB, order: seq<Job>, nWorkers: nat,
                          states: seq<Sink<DB>>, events: seq<Event>, maxTxnRow: nat, n: nat)
    requires IsRun(apply, states, events, maxTxnRow) && states[0] == Start(db, order, nWorkers) && n < |events|
    requires events[n] == Dispatch && states[n].todo != []
    ensures GoesRight(states[n], states[n + 1], Since(states, events, n))
  {
    MapIsHistory(apply, db, order, nWorkers, states, events, maxTxnRow, n);
    assert Moves(apply, states[n], events[n], states[n + 1], maxTxnRow);
    DispatchIs(apply, states[n], states[n + 1], maxTxnRow);
    DispatchChoice(states[n], Since(states, events, n));
  }
}
