/** What a history of DDL jobs comes to, as a chain of snapshots and as a replay, and when the two
    agree: exactly for histories in which RENAME TABLES renames nothing. */
module SchemaHistory {
  import opened SchemaSpec
  import opened SchemaConsistency

  // ----- Replaying a history -----

  /** A job that fails changes nothing. */
  function Apply(s: Snap, job: Job): Snap {
    if HandleDDL(s, job).Ok? then HandleDDL(s, job).value else s
  }

  /** Of the first `n` jobs exactly those that finished at or before the timestamp. */
  function ReplayUpTo(init: Snap, jobs: seq<Job>, n: nat, ts: nat): Snap
    requires n <= |jobs|
  {
    if n == 0 then init
    else if jobs[n - 1].finishedTs <= ts then Apply(ReplayUpTo(init, jobs, n - 1, ts), jobs[n - 1])
    else ReplayUpTo(init, jobs, n - 1, ts)
  }

  // ----- The chain of snapshots -----

  /** RENAME TABLES with tables to rename. */
  predicate TrueRename(job: Job) {
    job.kind.RenameTables? && job.renamed != []
  }

  /** The job changes nothing, not even the timestamp. */
  predicate Silent(job: Job) {
    Ignored(job) || (job.kind.RenameTables? && job.renamed == [])
  }

  /** The storage accepts the job: it finished after the last snapshot's timestamp, and succeeds. */
  ghost predicate Accepted(s: Snap, job: Job, s': Snap) {
    job.finishedTs > s.currentTs && HandleDDL(s, job) == Ok(s')
  }

  lemma AcceptedStep(s: Snap, job: Job, s': Snap)
    requires Accepted(s, job, s')
    ensures Silent(job) ==> s' == s
    ensures s'.currentTs == if Silent(job) || TrueRename(job) then s.currentTs else job.finishedTs
    ensures s' == Apply(s, job)
  {
    if TrueRename(job) {
      DropAllKeeps(s, job.renamed);
      CreateAllKeeps(DropAll(s, job.renamed).value, job.renamed, job.finishedTs);
    }
  }

  lemma SilentApplies(s: Snap, job: Job)
    requires Silent(job)
    ensures Apply(s, job) == s
  {
  }

  predicate NotAfter(s: Snap, t: Snap) {
    s.currentTs <= t.currentTs
  }

  ghost predicate Ascend(states: seq<Snap>) {
    forall i, j {:trigger NotAfter(states[i], states[j])} :: 0 <= i <= j < |states| ==> NotAfter(states[i], states[j])
  }

  /** The states a history of accepted jobs leads through. */
  ghost predicate Chained(init: Snap, jobs: seq<Job>, states: seq<Snap>) {
    && |states| == |jobs| + 1 && states[0] == init && Ascend(states)
    && forall i {:trigger Accepted(states[i], jobs[i], states[i + 1])} ::
         0 <= i < |jobs| ==> Accepted(states[i], jobs[i], states[i + 1])
  }

  lemma ChainAt(init: Snap, jobs: seq<Job>, states: seq<Snap>, i: nat)
    requires Chained(init, jobs, states) && i < |jobs|
    ensures Accepted(states[i], jobs[i], states[i + 1])
  {
  }

  lemma ChainGrows(init: Snap, jobs: seq<Job>, states: seq<Snap>, job: Job, s: Snap)
    requires Chained(init, jobs, states) && Accepted(states[|jobs|], job, s)
    ensures Chained(init, jobs + [job], states + [s])
  {
    var jobs', states' := jobs + [job], states + [s];
    AcceptedStep(states[|jobs|], job, s);
    forall i, j | 0 <= i <= j < |states'| ensures NotAfter(states'[i], states'[j]) {
      assert NotAfter(states[if i < |jobs| then i else |jobs|], states[if j < |jobs| then j else |jobs|]);
    }
    forall i | 0 <= i < |jobs'| ensures Accepted(states'[i], jobs'[i], states'[i + 1]) {
      if i < |jobs| {
        ChainAt(init, jobs, states, i);
      }
    }
  }

  /** With well-formed jobs every snapshot is consistent. */
  lemma {:induction false} ChainIsConsistent(init: Snap, jobs: seq<Job>, states: seq<Snap>, n: nat)
    requires Chained(init, jobs, states) && n <= |jobs| && Consistent(init)
    requires forall i :: 0 <= i < n ==> WellFormed(states[i], jobs[i])
    ensures Consistent(states[n])
  {
    if n > 0 {
      ChainIsConsistent(init, jobs, states, n - 1);
      ChainAt(init, jobs, states, n - 1);
      JobKeeps(states[n - 1], jobs[n - 1]);
    }
  }

  // ----- Looking up -----

  /** The last of the first `n` snapshots at or below the timestamp. */
  function LatestOf(states: seq<Snap>, n: nat, ts: nat): Option<Snap>
    requires n <= |states|
  {
    if n == 0 then None
    else if states[n - 1].currentTs <= ts then Some(states[n - 1])
    else LatestOf(states, n - 1, ts)
  }

  ghost predicate IsLatest(states: seq<Snap>, ts: nat, k: nat) {
    k < |states| && states[k].currentTs <= ts && forall j :: k < j < |states| ==> states[j].currentTs > ts
  }

  lemma {:induction false} LatestIs(states: seq<Snap>, n: nat, ts: nat, k: nat)
    requires IsLatest(states, ts, k) && k < n <= |states|
    ensures LatestOf(states, n, ts) == Some(states[k])
  {
    if k < n - 1 {
      LatestIs(states, n - 1, ts, k);
    }
  }

  lemma {:induction false} FindLatest(states: seq<Snap>, n: nat, ts: nat) returns (k: nat)
    requires 0 < n <= |states| && states[0].currentTs <= ts
    requires forall j :: n <= j < |states| ==> states[j].currentTs > ts
    ensures IsLatest(states, ts, k) && LatestOf(states, |states|, ts) == Some(states[k])
    decreases n
  {
    if states[n - 1].currentTs <= ts {
      k := n - 1;
      LatestIs(states, |states|, ts, k);
    } else {
      k := FindLatest(states, n - 1, ts);
    }
  }

  /** The jobs that led to a snapshot at or below the timestamp all finished by then. */
  lemma {:induction false} ReplayTo(init: Snap, jobs: seq<Job>, states: seq<Snap>, n: nat, ts: nat)
    requires Chained(init, jobs, states) && n <= |jobs| && states[n].currentTs <= ts
    requires forall i :: 0 <= i < n ==> !TrueRename(jobs[i])
    ensures ReplayUpTo(init, jobs, n, ts) == states[n]
  {
    if n > 0 {
      assert NotAfter(states[n - 1], states[n]);
      ReplayTo(init, jobs, states, n - 1, ts);
      ChainAt(init, jobs, states, n - 1);
      AcceptedStep(states[n - 1], jobs[n - 1], states[n]);
      if Silent(jobs[n - 1]) {
        SilentApplies(states[n - 1], jobs[n - 1]);
      }
    }
  }

  /** The jobs behind it did not, or change nothing. */
  lemma {:induction false} ReplayStays(init: Snap, jobs: seq<Job>, states: seq<Snap>, k: nat, n: nat, ts: nat)
    requires Chained(init, jobs, states) && k <= n <= |jobs| && IsLatest(states, ts, k)
    ensures ReplayUpTo(init, jobs, n, ts) == ReplayUpTo(init, jobs, k, ts)
    decreases n
  {
    if k < n {
      ReplayStays(init, jobs, states, k, n - 1, ts);
      ChainAt(init, jobs, states, n - 1);
      AcceptedStep(states[n - 1], jobs[n - 1], states[n]);
      if Silent(jobs[n - 1]) {
        SilentApplies(ReplayUpTo(init, jobs, n - 1, ts), jobs[n - 1]);
      } else {
        assert jobs[n - 1].finishedTs > ts;
      }
    }
  }

  ghost predicate NoRenames(jobs: seq<Job>) {
    forall i :: 0 <= i < |jobs| ==> !TrueRename(jobs[i])
  }

  /** The last snapshot at or below the timestamp is what the jobs finished by then give. */
  lemma ChainCut(init: Snap, jobs: seq<Job>, states: seq<Snap>, ts: nat)
    requires Chained(init, jobs, states) && NoRenames(jobs) && init.currentTs <= ts
    ensures LatestOf(states, |states|, ts) == Some(ReplayUpTo(init, jobs, |jobs|, ts))
  {
    var k := FindLatest(states, |states|, ts);
    ReplayStays(init, jobs, states, k, |jobs|, ts);
    ReplayTo(init, jobs, states, k, ts);
  }

  lemma {:induction false} ReplayIgnoresLater(init: Snap, jobs: seq<Job>, m: nat, n: nat, ts: nat)
    requires m <= n <= |jobs| && forall i :: m <= i < n ==> jobs[i].finishedTs > ts
    ensures ReplayUpTo(init, jobs, n, ts) == ReplayUpTo(init, jobs, m, ts)
    decreases n - m
  {
    if m < n {
      ReplayIgnoresLater(init, jobs, m, n - 1, ts);
    }
  }

  // ----- RENAME TABLES -----

  /** No table is newer than the snapshot. */
  ghost predicate VersionsOk(s: Snap) {
    forall id :: id in s.tables ==> s.tables[id].version <= s.currentTs
  }

  /** Some table is. */
  ghost predicate HasNewer(s: Snap) {
    exists id :: id in s.tables && s.tables[id].version > s.currentTs
  }

  /** Every table is an old one or of the given version. */
  ghost predicate TablesFrom(old_: map<ID, TableInfo>, new_: map<ID, TableInfo>, version: nat) {
    forall id :: id in new_ ==> (id in old_ && new_[id] == old_[id]) || new_[id].version == version
  }

  lemma ReplacedTables(s: Snap, id: ID, t: TableInfo)
    requires Then(DropTableFrom(s, id), t).Ok?
    ensures TablesFrom(s.tables, Then(DropTableFrom(s, id), t).value.tables, t.version)
  {
  }

  lemma ChangedTables(s: Snap, job: Job)
    requires !job.kind.RenameTables? && Change(s, job).Ok?
    ensures TablesFrom(s.tables, Change(s, job).value.tables, job.finishedTs)
  {
    match job.kind
    case RenameTable => ReplacedTables(s, job.tableID, WrapFor(s, job));
    case TruncateTable => ReplacedTables(s, job.tableID, WrapFor(s, job));
    case CreateSchema =>
    case ModifySchema =>
    case DropSchema =>
    case DropTable =>
    case CreateTable =>
    case ChangePartitions =>
    case AlterTable =>
  }

  lemma VersionsKept(s: Snap, job: Job, s': Snap)
    requires Accepted(s, job, s') && VersionsOk(s) && !TrueRename(job)
    ensures VersionsOk(s')
  {
    AcceptedStep(s, job, s');
    if !job.kind.RenameTables? {
      ChangedTables(s, job);
    }
  }

  lemma {:induction false} CreateAllGrows(s: Snap, renamed: seq<Renamed>, ts: nat, id: ID)
    requires CreateAll(s, renamed, ts).Ok? && id in s.tables
    ensures var s' := CreateAll(s, renamed, ts).value; id in s'.tables && s'.tables[id] == s.tables[id]
    decreases |renamed|
  {
    if renamed != [] {
      CreateAllGrows(CreateTableIn(s, RenamedTo(s, renamed[0], ts)).value, renamed[1..], ts, id);
    }
  }

  /** The tables that come are as new as the job, which the snapshot's timestamp does not tell. */
  lemma RenameNewer(s: Snap, job: Job, s': Snap)
    requires Accepted(s, job, s') && TrueRename(job)
    ensures HasNewer(s')
  {
    AcceptedStep(s, job, s');
    var mid, r := DropAll(s, job.renamed).value, job.renamed[0];
    var t := RenamedTo(mid, r, job.finishedTs);
    CreateAllGrows(CreateTableIn(mid, t).value, job.renamed[1..], job.finishedTs, t.id);
    assert s'.tables[t.id] == t;
  }

  lemma {:induction false} ChainVersions(init: Snap, jobs: seq<Job>, states: seq<Snap>, n: nat)
    requires Chained(init, jobs, states) && n <= |jobs| && VersionsOk(init)
    requires forall i :: 0 <= i < n ==> !TrueRename(jobs[i])
    ensures VersionsOk(states[n])
  {
    if n > 0 {
      ChainVersions(init, jobs, states, n - 1);
      ChainAt(init, jobs, states, n - 1);
      VersionsKept(states[n - 1], jobs[n - 1], states[n]);
    }
  }

  /** As long as the timestamp stays, so does the trace of a rename. */
  lemma {:induction false} NewerStays(init: Snap, jobs: seq<Job>, states: seq<Snap>, k: nat, n: nat)
    requires Chained(init, jobs, states) && k <= n <= |jobs| && HasNewer(states[k])
    requires states[n].currentTs == states[k].currentTs
    ensures HasNewer(states[n])
    decreases n - k
  {
    if k < n {
      assert NotAfter(states[k], states[n - 1]) && NotAfter(states[n - 1], states[n]);
      NewerStays(init, jobs, states, k, n - 1);
      ChainAt(init, jobs, states, n - 1);
      AcceptedStep(states[n - 1], jobs[n - 1], states[n]);
      if TrueRename(jobs[n - 1]) {
        RenameNewer(states[n - 1], jobs[n - 1], states[n]);
      }
    }
  }

  lemma {:induction false} FirstRename(jobs: seq<Job>, n: nat) returns (k: nat)
    requires n < |jobs| && TrueRename(jobs[n])
    ensures k <= n && TrueRename(jobs[k]) && forall i :: 0 <= i < k ==> !TrueRename(jobs[i])
  {
    if m: nat :| m < n && TrueRename(jobs[m]) {
      k := FirstRename(jobs, m);
    } else {
      k := n;
    }
  }

  /** After a rename the lookup at the timestamp it left behind is wrong, and stays so. */
  lemma RenameMisleads(init: Snap, jobs: seq<Job>, states: seq<Snap>, k: nat)
    requires Chained(init, jobs, states) && VersionsOk(init) && k < |jobs| && TrueRename(jobs[k])
    requires forall i :: 0 <= i < k ==> !TrueRename(jobs[i])
    ensures init.currentTs <= states[k].currentTs
    ensures var ts := states[k].currentTs; LatestOf(states, |states|, ts) != Some(ReplayUpTo(init, jobs, |jobs|, ts))
  {
    var ts := states[k].currentTs;
    assert NotAfter(states[0], states[k]);
    ChainVersions(init, jobs, states, k);
    ChainAt(init, jobs, states, k);
    AcceptedStep(states[k], jobs[k], states[k + 1]);
    RenameNewer(states[k], jobs[k], states[k + 1]);
    var m := FindLatest(states, |states|, ts);
    assert NotAfter(states[k + 1], states[m]);
    NewerStays(init, jobs, states, k + 1, m);
    forall i | k <= i < |jobs| ensures jobs[i].finishedTs > ts {
      ChainAt(init, jobs, states, i);
      assert NotAfter(states[k], states[i]);
    }
    ReplayIgnoresLater(init, jobs, k, |jobs|, ts);
    ReplayTo(init, jobs, states, k, ts);
  }

  /** Lookups are replays, at all timestamps, exactly if no RENAME TABLES has renamed anything. */
  lemma LookupsAreReplays(init: Snap, jobs: seq<Job>, states: seq<Snap>)
    requires Chained(init, jobs, states) && VersionsOk(init)
    ensures (forall ts :: ts >= init.currentTs ==>
               LatestOf(states, |states|, ts) == Some(ReplayUpTo(init, jobs, |jobs|, ts)))
            <==> NoRenames(jobs)
  {
    if NoRenames(jobs) {
      forall ts: nat | ts >= init.currentTs
        ensures LatestOf(states, |states|, ts) == Some(ReplayUpTo(init, jobs, |jobs|, ts))
      {
        ChainCut(init, jobs, states, ts);
      }
    } else {
      var n: nat :| n < |jobs| && TrueRename(jobs[n]);
      var k := FirstRename(jobs, n);
      RenameMisleads(init, jobs, states, k);
    }
  }

  /** The snapshot after RENAME TABLES is found from the timestamp of the one before on, and before
      the job has finished that is right exactly if there was nothing to rename. */
  lemma RenameIsSeenEarly(init: Snap, jobs: seq<Job>, states: seq<Snap>, job: Job, s: Snap, ts: nat)
    requires Chained(init, jobs, states) && NoRenames(jobs) && VersionsOk(init)
    requires Accepted(states[|jobs|], job, s) && job.kind.RenameTables?
    requires states[|jobs|].currentTs <= ts < job.finishedTs
    ensures LatestOf(states + [s], |states| + 1, ts) == Some(s)
    ensures s == ReplayUpTo(init, jobs + [job], |jobs| + 1, ts) <==> job.renamed == []
  {
    var last := states[|jobs|];
    AcceptedStep(last, job, s);
    assert NotAfter(states[0], last);
    ReplayTo(init, jobs, states, |jobs|, ts);
    ReplayPrefix(init, jobs, jobs + [job], |jobs|, ts);
    ChainVersions(init, jobs, states, |jobs|);
    if TrueRename(job) { RenameNewer(last, job, s); }
  }

  lemma {:induction false} ReplayPrefix(init: Snap, a: seq<Job>, b: seq<Job>, n: nat, ts: nat)
    requires n <= |a| <= |b| && b[..|a|] == a
    ensures ReplayUpTo(init, a, n, ts) == ReplayUpTo(init, b, n, ts)
  {
    if n > 0 {
      ReplayPrefix(init, a, b, n - 1, ts);
      assert a[n - 1] == b[n - 1];
    }
  }
}
