/** Multi-version schema storage: the snapshots of a history are kept, found and collected. */
module SchemaStorage {
  import opened SchemaSpec
  import opened SchemaConsistency
  import opened SchemaHistory
  import opened SchemaContents
  import opened SchemaSnapshot

  // ----- The storage as a value -----

  /** All snapshots of the history; those before `base` are collected. */
  datatype Storage = Storage(init: Snap, history: seq<Job>, states: seq<Snap>, base: nat, gcTs: nat, resolvedTs: nat)

  ghost predicate Stored(s: Storage) {
    && Chained(s.init, s.history, s.states)
    && s.base < |s.states|
    && s.gcTs == if s.base == 0 then 0 else s.states[s.base].currentTs
  }

  datatype Lookup = GCed | Unresolved | NotFound | Found(snap: Snap)

  /** What a lookup gives: the last snapshot at or below the timestamp. */
  function LookUp(s: Storage, ts: nat): Lookup {
    if ts < s.gcTs then GCed
    else if ts > s.resolvedTs then Unresolved
    else match LatestOf(s.states, |s.states|, ts)
      case None => NotFound
      case Some(snap) => Found(snap)
  }

  /** A lookup succeeds exactly between what is collected and what is resolved, from the first snapshot on. */
  lemma LookupExactly(s: Storage, ts: nat)
    requires Stored(s)
    ensures LookUp(s, ts).GCed? <==> ts < s.gcTs
    ensures LookUp(s, ts).Found? <==> s.gcTs <= ts <= s.resolvedTs && s.init.currentTs <= ts
    ensures LookUp(s, ts).Found? ==> exists k: nat :: IsLatest(s.states, ts, k) && LookUp(s, ts).snap == s.states[k]
  {
    if s.init.currentTs <= ts {
      var k := FindLatest(s.states, |s.states|, ts);
    } else {
      NoneLatest(s.states, |s.states|, ts);
    }
  }

  /** Which is the replay of the jobs finished by then, if no RENAME TABLES is in between. */
  lemma LookupIsReplay(s: Storage, ts: nat)
    requires Stored(s) && NoRenames(s.history) && LookUp(s, ts).Found?
    ensures LookUp(s, ts).snap == ReplayUpTo(s.init, s.history, |s.history|, ts)
  {
    if ts >= s.init.currentTs {
      ChainCut(s.init, s.history, s.states, ts);
    } else {
      NoneLatest(s.states, |s.states|, ts);
    }
  }

  /** A lookup finds the schemas and tables that the jobs up to it have left, as they describe them; without
      RENAME TABLES these are the jobs finished by then. */
  lemma LookupIsTold(s: Storage, ts: nat, d: ID, id: ID) returns (k: nat)
    requires Stored(s) && LookUp(s, ts).Found?
    ensures IsLatest(s.states, ts, k) && LookUp(s, ts).snap == s.states[k]
    ensures TableTold(s.init, s.history, s.states, k, id) && SchemaTold(s.init, s.history, k, s.states[k], d)
    ensures id in s.states[k].truncated <==>
            id in s.init.truncated || exists i: nat :: i < k && Truncates(s.init, s.history, i, id)
    ensures NoRenames(s.history) ==> forall i :: 0 <= i < |s.history| && !Silent(s.history[i]) ==>
              (i < k <==> s.history[i].finishedTs <= ts)
  {
    LookupExactly(s, ts);
    k :| IsLatest(s.states, ts, k) && LookUp(s, ts).snap == s.states[k];
    TablesAre(s.init, s.history, s.states, k, d, id);
    SchemasAre(s.init, s.history, s.states, k, d);
    TruncatedAre(s.init, s.history, s.states, k, id);
    if NoRenames(s.history) {
      LatestCuts(s.init, s.history, s.states, ts, k);
    }
  }

  lemma {:induction false} NoneLatest(states: seq<Snap>, n: nat, ts: nat)
    requires n <= |states| && Ascend(states) && (states != [] ==> states[0].currentTs > ts)
    ensures LatestOf(states, n, ts) == None
  {
    if n > 0 {
      assert NotAfter(states[0], states[n - 1]);
      NoneLatest(states, n - 1, ts);
    }
  }

  // ----- Requests -----

  function Advanced(s: Storage, ts: nat): Storage {
    s.(resolvedTs := if ts < s.resolvedTs then s.resolvedTs else ts)
  }

  function Last(s: Storage): Snap
    requires s.states != []
  {
    s.states[|s.states| - 1]
  }

  /** A skipped job only advances the resolved timestamp; one that finished by the last snapshot's
      timestamp, or that fails, changes nothing; any other is applied to the last snapshot. */
  function Handled(s: Storage, job: Job, skip: bool): Storage
    requires s.states != []
  {
    if skip then Advanced(s, job.finishedTs)
    else if job.finishedTs <= Last(s).currentTs then s
    else match HandleDDL(Last(s), job)
      case Ok(snap) => Advanced(s.(history := s.history + [job], states := s.states + [snap]), job.finishedTs)
      case Failed(_) => s
  }

  /** A job that finished after the last snapshot is taken in exactly if it is possible there. */
  lemma JobIsTaken(s: Storage, job: Job)
    requires Stored(s) && Consistent(Last(s)) && job.finishedTs > Last(s).currentTs
    ensures Handled(s, job, true) == s.(resolvedTs := if job.finishedTs < s.resolvedTs then s.resolvedTs
                                                      else job.finishedTs)
    ensures var t := Handled(s, job, false);
            if Possible(Last(s), job) then
              && t.history == s.history + [job] && |t.states| == |s.states| + 1 && t.states[..|s.states|] == s.states
              && t.resolvedTs >= job.finishedTs && t.resolvedTs >= s.resolvedTs
              && Last(t).currentTs == if Silent(job) || TrueRename(job) then Last(s).currentTs else job.finishedTs
            else t == s
  {
    SucceedsExactly(Last(s), job);
    if Possible(Last(s), job) {
      AcceptedStep(Last(s), job, HandleDDL(Last(s), job).value);
    }
  }

  /** The last of the snapshots between `base` and `n` at or below the timestamp, or the first of them. */
  function StartOf(states: seq<Snap>, base: nat, n: nat, ts: nat): (k: nat)
    requires base < n <= |states|
    ensures base <= k < n && (k > base ==> states[k].currentTs <= ts)
  {
    if n == base + 1 then base
    else if states[n - 1].currentTs <= ts then n - 1
    else StartOf(states, base, n - 1, ts)
  }

  function Collected(s: Storage, ts: nat): Storage
    requires s.base < |s.states|
  {
    var k := StartOf(s.states, s.base, |s.states|, ts);
    if k == s.base then s else s.(base := k, gcTs := s.states[k].currentTs)
  }

  lemma {:induction false} StartIsLast(states: seq<Snap>, base: nat, n: nat, ts: nat)
    requires base < n <= |states|
    ensures forall j :: StartOf(states, base, n, ts) < j < n ==> states[j].currentTs > ts
  {
    if n > base + 1 && states[n - 1].currentTs > ts {
      StartIsLast(states, base, n - 1, ts);
    }
  }

  /** What is collected is just what lookups from the timestamp on do not need. */
  lemma CollectedExactly(s: Storage, ts: nat)
    requires Stored(s)
    ensures var t := Collected(s, ts);
            && t == s.(base := t.base, gcTs := t.gcTs) && s.base <= t.base < |s.states|
            && (t.base > s.base ==> s.states[t.base].currentTs == t.gcTs <= ts)
            && (forall j :: t.base < j < |s.states| ==> s.states[j].currentTs > ts)
    ensures forall u: nat :: u >= ts && u >= s.gcTs ==> LookUp(Collected(s, ts), u) == LookUp(s, u)
  {
    StartIsLast(s.states, s.base, |s.states|, ts);
  }

  datatype Request = Handle(job: Job, skip: bool) | Advance(ts: nat) | Collect(ts: nat)

  function Served(s: Storage, r: Request): Storage
    requires s.base < |s.states|
  {
    match r
    case Handle(job, skip) => Handled(s, job, skip)
    case Advance(ts) => Advanced(s, ts)
    case Collect(ts) => Collected(s, ts)
  }

  lemma ServedIsStored(s: Storage, r: Request)
    requires Stored(s)
    ensures Stored(Served(s, r)) && s.gcTs <= Served(s, r).gcTs && s.resolvedTs <= Served(s, r).resolvedTs
  {
    if r.Handle? && !r.skip && r.job.finishedTs > Last(s).currentTs && HandleDDL(Last(s), r.job).Ok? {
      ChainGrows(s.init, s.history, s.states, r.job, HandleDDL(Last(s), r.job).value);
    } else if r.Collect? {
      assert NotAfter(s.states[s.base], s.states[Served(s, r).base]);
    }
  }

  /** A job that is accepted finished above what was resolved, and is no RENAME TABLES. */
  ghost predicate Tame(s: Storage, r: Request)
    requires s.base < |s.states|
  {
    r.Handle? && !r.skip && r.job.finishedTs > Last(s).currentTs && HandleDDL(Last(s), r.job).Ok? ==>
      r.job.finishedTs > s.resolvedTs && !TrueRename(r.job)
  }

  lemma {:induction false} LatestOfMore(states: seq<Snap>, s: Snap, n: nat, ts: nat)
    requires n <= |states|
    ensures LatestOf(states + [s], n, ts) == LatestOf(states, n, ts)
  {
    if n > 0 {
      LatestOfMore(states, s, n - 1, ts);
    }
  }

  lemma RequestKeepsLookup(s: Storage, r: Request, ts: nat)
    requires Stored(s) && Tame(s, r) && LookUp(s, ts).Found?
    ensures LookUp(Served(s, r), ts) == LookUp(s, ts) || LookUp(Served(s, r), ts).GCed?
  {
    if r.Handle? && !r.skip && r.job.finishedTs > Last(s).currentTs && HandleDDL(Last(s), r.job).Ok? {
      var snap := HandleDDL(Last(s), r.job).value;
      AcceptedStep(Last(s), r.job, snap);
      LatestOfMore(s.states, snap, |s.states|, ts);
    }
  }

  ghost predicate AllTame(s: Storage, rs: seq<Request>)
    requires Stored(s)
    decreases |rs|
  {
    rs != [] ==> Tame(s, rs[0]) && (ServedIsStored(s, rs[0]); AllTame(Served(s, rs[0]), rs[1..]))
  }

  ghost function AllServed(s: Storage, rs: seq<Request>): Storage
    requires Stored(s)
    decreases |rs|
  {
    if rs == [] then s else ServedIsStored(s, rs[0]); AllServed(Served(s, rs[0]), rs[1..])
  }

  lemma {:induction false} StaysCollected(s: Storage, rs: seq<Request>, ts: nat)
    requires Stored(s) && LookUp(s, ts).GCed?
    ensures LookUp(AllServed(s, rs), ts).GCed?
    decreases |rs|
  {
    if rs != [] {
      ServedIsStored(s, rs[0]);
      StaysCollected(Served(s, rs[0]), rs[1..], ts);
    }
  }

  /** A snapshot once found at a timestamp is found there ever after, until it is collected, whatever
      jobs, resolved timestamps and collections come in between. */
  lemma {:induction false} LookupsAreStable(s: Storage, rs: seq<Request>, ts: nat)
    requires Stored(s) && AllTame(s, rs) && LookUp(s, ts).Found?
    ensures LookUp(AllServed(s, rs), ts) == LookUp(s, ts) || LookUp(AllServed(s, rs), ts).GCed?
    decreases |rs|
  {
    if rs != [] {
      ServedIsStored(s, rs[0]);
      RequestKeepsLookup(s, rs[0], ts);
      if LookUp(Served(s, rs[0]), ts).GCed? {
        StaysCollected(Served(s, rs[0]), rs[1..], ts);
      } else {
        LookupsAreStable(Served(s, rs[0]), rs[1..], ts);
      }
    }
  }

  /** Of the jobs that finished above what was resolved, only RENAME TABLES disturbs lookups, and it
      always does. */
  lemma RenameDisturbsExactly(s: Storage, job: Job)
    requires Stored(s) && VersionsOk(Last(s)) && Last(s).currentTs <= s.resolvedTs < job.finishedTs
    requires HandleDDL(Last(s), job).Ok?
    ensures (forall ts :: LookUp(s, ts).Found? ==> LookUp(Handled(s, job, false), ts) == LookUp(s, ts))
            <==> !TrueRename(job)
  {
    var snap, ts := HandleDDL(Last(s), job).value, Last(s).currentTs;
    AcceptedStep(Last(s), job, snap);
    if TrueRename(job) {
      RenameNewer(Last(s), job, snap);
      assert NotAfter(s.states[s.base], Last(s));
      assert LookUp(s, ts) == Found(Last(s)) && LookUp(Handled(s, job, false), ts) == Found(snap);
    } else {
      forall ts | LookUp(s, ts).Found? ensures LookUp(Handled(s, job, false), ts) == LookUp(s, ts) {
        RequestKeepsLookup(s, Handle(job, false), ts);
      }
    }
  }

  function Grown(s: Storage, job: Job, snap: Snap): Storage {
    s.(history := s.history + [job], states := s.states + [snap])
  }

  lemma StoredMore(s: Storage, job: Job, snap: Snap)
    requires Stored(s) && Accepted(Last(s), job, snap)
    ensures Stored(Grown(s, job, snap))
  {
    ChainGrows(s.init, s.history, s.states, job, snap);
  }

  // ----- The storage as an object -----

  ghost predicate IsSnap(s: Snapshot, snap: Snap)
    reads s, s.tableInSchema, s.tableInSchema.Repr
  {
    s.Valid() && s.Abs() == snap
  }

  /** The objects hold the snapshots, each within the footprint. */
  ghost predicate Backed(objects: seq<Snapshot>, snaps: seq<Snap>, footprint: set<object>)
    reads footprint
  {
    && |objects| == |snaps|
    && (forall i :: 0 <= i < |objects| ==> objects[i] in footprint && objects[i].tableInSchema in footprint)
    && (forall i :: 0 <= i < |objects| ==> objects[i].Footprint() <= footprint && IsSnap(objects[i], snaps[i]))
  }

  lemma BackedMore(objects: seq<Snapshot>, snaps: seq<Snap>, footprint: set<object>, x: Snapshot)
    requires Backed(objects, snaps, footprint) && x.Valid()
    ensures Backed(objects + [x], snaps + [x.Abs()], footprint + x.Footprint())
  {
  }

  lemma BackedLess(objects: seq<Snapshot>, snaps: seq<Snap>, footprint: set<object>, n: nat)
    requires Backed(objects, snaps, footprint) && n <= |objects|
    ensures Backed(objects[n..], snaps[n..], footprint)
  {
  }

  class SchemaStorageImpl {
    var snaps: seq<Snapshot>
    var gcTs: nat
    var resolvedTs: nat

    // The snapshot at the start, the jobs accepted since, the states they led through,
    // and how many snapshots were collected.
    ghost var init: Snap
    ghost var history: seq<Job>
    ghost var states: seq<Snap>
    ghost var base: nat
    ghost var Repr: set<object>

    ghost function Abs(): Storage
      reads this
    {
      Storage(init, history, states, base, gcTs, resolvedTs)
    }

    ghost predicate Valid()
      reads this, Repr
    {
      Stored(Abs()) && this !in Repr && Backed(snaps, states[base..], Repr)
    }

    constructor (first: Snapshot, startTs: nat)
      requires first.Valid()
      ensures Valid() && Abs() == Storage(first.Abs(), [], [first.Abs()], 0, 0, startTs)
    {
      snaps, gcTs, resolvedTs := [first], 0, startTs;
      init, history, states, base, Repr := first.Abs(), [], [first.Abs()], 0, first.Footprint();
    }

    lemma Ascending(i: nat, j: nat)
      requires Valid() && i <= j < |snaps|
      ensures snaps[i].currentTs <= snaps[j].currentTs
    {
      assert IsSnap(snaps[i], states[base..][i]) && IsSnap(snaps[j], states[base..][j]);
      assert NotAfter(states[base + i], states[base + j]);
    }

    /** How many snapshots are at or below the timestamp; binary search. */
    method Search(ts: nat) returns (n: nat)
      requires Valid()
      ensures n <= |snaps|
      ensures forall k :: 0 <= k < n ==> snaps[k].currentTs <= ts
      ensures forall k :: n <= k < |snaps| ==> snaps[k].currentTs > ts
    {
      var i, j := 0, |snaps|;
      while i < j
        invariant 0 <= i <= j <= |snaps|
        invariant forall k :: 0 <= k < i ==> snaps[k].currentTs <= ts
        invariant forall k :: j <= k < |snaps| ==> snaps[k].currentTs > ts
      {
        var h := (i + j) / 2;
        forall k | 0 <= k <= h ensures snaps[k].currentTs <= snaps[h].currentTs { Ascending(k, h); }
        forall k | h <= k < |snaps| ensures snaps[h].currentTs <= snaps[k].currentTs { Ascending(h, k); }
        if !(snaps[h].currentTs > ts) {
          i := h + 1;
        } else {
          j := h;
        }
      }
      return i;
    }

    lemma LastIsLatest(n: nat, ts: nat)
      requires Valid() && 0 < n <= |snaps|
      requires snaps[n - 1].currentTs <= ts && forall k :: n <= k < |snaps| ==> snaps[k].currentTs > ts
      ensures LatestOf(states, |states|, ts) == Some(snaps[n - 1].Abs())
    {
      var k := base + n - 1;
      assert IsSnap(snaps[n - 1], states[base..][n - 1]);
      forall j | k < j < |states| ensures states[j].currentTs > ts {
        assert IsSnap(snaps[j - base], states[base..][j - base]);
      }
      LatestIs(states, |states|, ts, k);
    }

    /** Exactly what the lookup gives; without RENAME TABLES that is a replay of the jobs. */
    method GetSnapshot(ts: nat) returns (r: Option<Snapshot>, failure: Lookup)
      requires Valid()
      ensures match LookUp(Abs(), ts)
              case Found(snap) => r.Some? && r.value in snaps && r.value.Abs() == snap
              case other => r.None? && failure == other
      ensures r.Some? && NoRenames(history) ==> r.value.Abs() == ReplayUpTo(init, history, |history|, ts)
    {
      if ts < gcTs {
        return None, GCed;
      }
      if ts > resolvedTs {
        return None, Unresolved;
      }
      var i := Search(ts);
      assert IsSnap(snaps[0], states[base..][0]);
      if i <= 0 {
        NoneLatest(states, |states|, ts);
        return None, NotFound;
      }
      LastIsLatest(i, ts);
      if NoRenames(history) { LookupIsReplay(Abs(), ts); }
      return Some(snaps[i - 1]), NotFound;
    }

    method AdvanceResolvedTs(ts: nat)
      requires Valid()
      modifies this`resolvedTs
      ensures Valid() && Abs() == Advanced(old(Abs()), ts)
      ensures resolvedTs == if ts < old(resolvedTs) then old(resolvedTs) else ts
    {
      if ts < resolvedTs {
        return;
      }
      resolvedTs := ts;
    }

    /** Appends a snapshot for a job that was accepted. */
    method Push(snap: Snapshot, ghost job: Job)
      requires Valid() && snap.Valid() && Stored(Grown(Abs(), job, snap.Abs()))
      modifies this`snaps, this`history, this`states, this`Repr
      ensures Valid() && Abs() == Grown(old(Abs()), job, snap.Abs())
      ensures snaps == old(snaps) + [snap]
    {
      BackedMore(snaps, states[base..], Repr, snap);
      assert (states + [snap.Abs()])[base..] == states[base..] + [snap.Abs()];
      snaps := snaps + [snap];
      history := history + [job];
      states := states + [snap.Abs()];
      Repr := Repr + snap.Footprint();
    }

    /** Applies the job to a copy of the last snapshot. */
    method NextSnapshot(job: Job) returns (err: Option<Error>, snap: Snapshot)
      requires Valid()
      ensures snap.Valid() && fresh(snap.Footprint())
      ensures Outcome(HandleDDL(Last(Abs()), job), err, snap.Abs())
    {
      var lastSnap := snaps[|snaps| - 1];
      assert IsSnap(lastSnap, states[base..][|snaps| - 1]);
      snap := new Snapshot.Clone(lastSnap);
      err := snap.HandleDDLJob(job);
    }

    /** Keeps the copy if that succeeds. */
    method Take(job: Job) returns (err: Option<Error>)
      requires Valid() && job.finishedTs > Last(Abs()).currentTs
      modifies this
      ensures Valid() && Abs() == Handled(old(Abs()), job, false)
      ensures err == match HandleDDL(Last(old(Abs())), job) case Ok(_) => None case Failed(e) => Some(e)
    {
      var snap;
      err, snap := NextSnapshot(job);
      if err.Some? {
        return;
      }
      StoredMore(Abs(), job, snap.Abs());
      Push(snap, job);
      AdvanceResolvedTs(job.finishedTs);
    }

    /** Any job, RENAME TABLES included; it reports the error of one that fails. */
    method HandleDDLJob(job: Job, skip: bool) returns (err: Option<Error>)
      requires Valid()
      modifies this
      ensures Valid() && Abs() == Handled(old(Abs()), job, skip)
      ensures err == if skip || job.finishedTs <= Last(old(Abs())).currentTs then None
                     else match HandleDDL(Last(old(Abs())), job) case Ok(_) => None case Failed(e) => Some(e)
    {
      if skip {
        AdvanceResolvedTs(job.finishedTs);
        return None;
      }
      assert IsSnap(snaps[|snaps| - 1], states[base..][|snaps| - 1]);
      if job.finishedTs <= snaps[|snaps| - 1].currentTs {
        return None;
      }
      err := Take(job);
    }

    /** The last snapshot at or below the timestamp, or the first if there is none. */
    method FindStart(ts: nat) returns (startIdx: nat)
      requires Valid()
      ensures startIdx < |snaps| && base + startIdx == StartOf(states, base, |states|, ts)
      ensures snaps[startIdx].currentTs == states[base + startIdx].currentTs
    {
      var i;
      startIdx, i := PassOver(ts);
      IsStart(startIdx, i, ts);
    }

    /** Goes past the first snapshots at or below the timestamp. */
    method PassOver(ts: nat) returns (startIdx: nat, i: nat)
      requires snaps != []
      ensures startIdx < |snaps| && i <= |snaps| && startIdx == if i == 0 then 0 else i - 1
      ensures (i > 0 ==> snaps[startIdx].currentTs <= ts) && (i < |snaps| ==> snaps[i].currentTs > ts)
    {
      startIdx, i := 0, 0;
      while i < |snaps| && snaps[i].currentTs <= ts
        invariant 0 <= i <= |snaps| && startIdx == if i == 0 then 0 else i - 1
        invariant i > 0 ==> snaps[startIdx].currentTs <= ts
      {
        startIdx := i;
        i := i + 1;
      }
    }

    lemma IsStart(startIdx: nat, i: nat, ts: nat)
      requires Valid() && startIdx < |snaps| && i <= |snaps| && startIdx == (if i == 0 then 0 else i - 1)
      requires (i > 0 ==> snaps[startIdx].currentTs <= ts) && (i < |snaps| ==> snaps[i].currentTs > ts)
      ensures base + startIdx == StartOf(states, base, |states|, ts)
      ensures snaps[startIdx].currentTs == states[base + startIdx].currentTs
    {
      LaterThan(startIdx, i, ts);
      assert IsSnap(snaps[startIdx], states[base..][startIdx]);
      StartIs(states, base, |states|, ts, base + startIdx);
    }

    lemma LaterThan(startIdx: nat, i: nat, ts: nat)
      requires Valid() && startIdx < |snaps| && i <= |snaps| && startIdx == (if i == 0 then 0 else i - 1)
      requires i < |snaps| ==> snaps[i].currentTs > ts
      ensures forall k :: base + startIdx < k < |states| ==> states[k].currentTs > ts
    {
      forall k | base + startIdx < k < |states| ensures states[k].currentTs > ts {
        Ascending(i, k - base);
        assert IsSnap(snaps[k - base], states[base..][k - base]);
      }
    }

    /** Collects the snapshots before the last one at or below the timestamp. */
    method DoGC(ts: nat) returns (lastSchemaTs: nat)
      requires Valid()
      modifies this`snaps, this`gcTs, this`base
      ensures Valid() && Abs() == Collected(old(Abs()), ts) && lastSchemaTs == states[base].currentTs
    {
      var startIdx := FindStart(ts);
      if startIdx == 0 {
        assert IsSnap(snaps[0], states[base..][0]);
        return snaps[0].currentTs;
      }
      Drop(startIdx);
      return gcTs;
    }

    method Drop(n: nat)
      requires Valid() && 0 < n < |snaps|
      modifies this`snaps, this`gcTs, this`base
      ensures Valid() && Abs() == old(Abs()).(base := old(base) + n, gcTs := states[old(base) + n].currentTs)
      ensures snaps == old(snaps)[n..]
    {
      BackedFrom(n);
      snaps, base, gcTs := snaps[n..], base + n, snaps[n].currentTs;
    }

    lemma BackedFrom(n: nat)
      requires Valid() && n < |snaps|
      ensures Backed(snaps[n..], states[base + n..], Repr)
      ensures base + n < |states| && snaps[n].currentTs == states[base + n].currentTs
    {
      BackedLess(snaps, states[base..], Repr, n);
      assert states[base..][n..] == states[base + n..];
      assert IsSnap(snaps[n], states[base..][n]);
    }
  }

  lemma {:induction false} StartIs(states: seq<Snap>, base: nat, n: nat, ts: nat, k: nat)
    requires base <= k < n <= |states| && (k > base ==> states[k].currentTs <= ts)
    requires forall j :: k < j < n ==> states[j].currentTs > ts
    ensures StartOf(states, base, n, ts) == k
  {
    if k < n - 1 {
      StartIs(states, base, n - 1, ts, k);
    }
  }
}
