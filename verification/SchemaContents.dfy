/** What a history of DDL jobs leaves behind, said from the jobs alone: which schemas and tables there are,
    as which job described them, and which tables are gone for good. */
module SchemaContents {
  import opened SchemaSpec
  import opened SchemaConsistency
  import opened SchemaHistory

  // ----- What a job says -----

  /** What RENAME TABLES says of the table that is to come. */
  function Coming(renamed: seq<Renamed>, id: ID): Option<Renamed> {
    if renamed == [] then None
    else if renamed[0].table.id == id then Some(renamed[0])
    else Coming(renamed[1..], id)
  }

  predicate Going(renamed: seq<Renamed>, id: ID) {
    renamed != [] && (renamed[0].oldID == id || Going(renamed[1..], id))
  }

  predicate Describing(job: Job, id: ID) {
    job.tableInfo.Some? && job.tableInfo.value.id == id
  }

  /** The job brings the table into being. */
  predicate Creates(job: Job, id: ID) {
    match job.kind
    case CreateTable => Describing(job, id)
    case RenameTable => Describing(job, id)
    case TruncateTable => Describing(job, id)
    case RenameTables => Coming(job.renamed, id).Some?
    case _ => false
  }

  /** The job does away with the table; renaming and truncating may bring it back at once. */
  predicate Drops(job: Job, id: ID) {
    match job.kind
    case DropTable => job.tableID == id
    case RenameTable => job.tableID == id
    case TruncateTable => job.tableID == id
    case RenameTables => Going(job.renamed, id)
    case _ => false
  }

  /** The job describes the table. */
  predicate Carries(job: Job, id: ID) {
    Creates(job, id) || ((job.kind.AlterTable? || job.kind.ChangePartitions?) && Describing(job, id))
  }

  function RawOf(job: Job, id: ID): RawTable
    requires Carries(job, id)
  {
    if job.kind.RenameTables? then Coming(job.renamed, id).value.table else job.tableInfo.value
  }

  /** The schema that the job puts the table in. */
  function PlaceOf(job: Job, id: ID): ID
    requires Carries(job, id)
  {
    if job.kind.RenameTables? then Coming(job.renamed, id).value.schemaID else job.schemaID
  }

  /** The job describes the schema. */
  predicate Describes(job: Job, d: ID) {
    (job.kind.CreateSchema? || job.kind.ModifySchema?) && job.dbInfo.Some? && job.dbInfo.value.id == d
  }

  predicate DropsSchema(job: Job, d: ID) {
    job.kind.DropSchema? && job.schemaID == d
  }

  // ----- What a history says -----

  /** The last of the first `n` jobs that describes the table. */
  function LastCarrier(jobs: seq<Job>, n: nat, id: ID): (k: Option<nat>)
    requires n <= |jobs|
    ensures k.Some? ==> k.value < n && Carries(jobs[k.value], id)
  {
    if n == 0 then None else if Carries(jobs[n - 1], id) then Some(n - 1) else LastCarrier(jobs, n - 1, id)
  }

  /** The last of the first `n` jobs that describes or drops the schema. */
  function LastOnSchema(jobs: seq<Job>, n: nat, d: ID): (k: Option<nat>)
    requires n <= |jobs|
    ensures k.Some? ==> k.value < n && (Describes(jobs[k.value], d) || DropsSchema(jobs[k.value], d))
  {
    if n == 0 then None
    else if Describes(jobs[n - 1], d) || DropsSchema(jobs[n - 1], d) then Some(n - 1)
    else LastOnSchema(jobs, n - 1, d)
  }

  function InitialSchema(init: Snap, id: ID): Option<ID> {
    if id in init.tables then Some(init.tables[id].schemaID) else None
  }

  /** The schema that the last description of the table puts it in. */
  function SchemaOf(init: Snap, jobs: seq<Job>, n: nat, id: ID): Option<ID>
    requires n <= |jobs|
  {
    match LastCarrier(jobs, n, id)
    case Some(k) => Some(PlaceOf(jobs[k], id))
    case None => InitialSchema(init, id)
  }

  /** How often the schema lists the table: a table is listed where it is created and struck off where it was
      last said to be. */
  function Count(init: Snap, jobs: seq<Job>, n: nat, id: ID, d: ID): nat
    requires n <= |jobs|
  {
    if n == 0 then multiset(ListOf(init, d))[id]
    else
      var job, c := jobs[n - 1], Count(init, jobs, n - 1, id, d);
      if DropsSchema(job, d) || (job.kind.CreateSchema? && Describes(job, d)) then 0
      else (if Drops(job, id) && SchemaOf(init, jobs, n - 1, id) == Some(d) && c > 0 then c - 1 else c)
           + (if Creates(job, id) && PlaceOf(job, id) == d then 1 else 0)
  }

  /** The job with that number is the end of the table, directly or with the schema that lists it. */
  predicate Ends(init: Snap, jobs: seq<Job>, i: nat, id: ID)
    requires i < |jobs|
  {
    || (Drops(jobs[i], id) && !Creates(jobs[i], id))
    || (jobs[i].kind.DropSchema? && Count(init, jobs, i, id, jobs[i].schemaID) > 0)
  }

  /** The last of the first `n` jobs that creates the table or is its end. */
  function LastTouch(init: Snap, jobs: seq<Job>, n: nat, id: ID): (k: Option<nat>)
    requires n <= |jobs|
    ensures k.Some? ==> k.value < n && (Creates(jobs[k.value], id) || Ends(init, jobs, k.value, id))
  {
    if n == 0 then None
    else if Creates(jobs[n - 1], id) || Ends(init, jobs, n - 1, id) then Some(n - 1)
    else LastTouch(init, jobs, n - 1, id)
  }

  /** There is such a table: the last job that creates or drops it creates it. */
  predicate Exists(init: Snap, jobs: seq<Job>, n: nat, id: ID)
    requires n <= |jobs|
  {
    match LastTouch(init, jobs, n, id)
    case Some(k) => Creates(jobs[k], id)
    case None => id in init.tables
  }

  predicate SchemaExists(init: Snap, jobs: seq<Job>, n: nat, d: ID)
    requires n <= |jobs|
  {
    match LastOnSchema(jobs, n, d)
    case Some(k) => Describes(jobs[k], d)
    case None => d in init.schemas
  }

  function PartitionList(parts: Option<seq<ID>>): set<ID> {
    if parts.None? then {} else Elements(parts.value)
  }

  /** The partitions that the last description of the table gives it. */
  function LastParts(init: Snap, jobs: seq<Job>, n: nat, id: ID): set<ID>
    requires n <= |jobs|
  {
    match LastCarrier(jobs, n, id)
    case Some(k) => PartitionList(RawOf(jobs[k], id).partitions)
    case None => if id in init.tables then PartitionList(init.tables[id].partitions) else {}
  }

  /** The job with that number truncates the table, or takes the partition away from its table. */
  predicate Truncates(init: Snap, jobs: seq<Job>, i: nat, id: ID)
    requires i < |jobs|
  {
    var job := jobs[i];
    || (job.kind.TruncateTable? && job.tableID == id)
    || (job.kind.ChangePartitions? && job.tableInfo.Some?
        && id in LastParts(init, jobs, i, job.tableInfo.value.id)
        && id !in PartitionList(job.tableInfo.value.partitions))
  }

  // ----- One job -----

  ghost predicate SchemaMoved(s: Snap, job: Job, s': Snap, d: ID) {
    if Describes(job, d) then d in s'.schemas && s'.schemas[d] == job.dbInfo.value
    else (d in s'.schemas <==> d in s.schemas && !DropsSchema(job, d))
         && (d in s'.schemas ==> s'.schemas[d] == s.schemas[d])
  }

  /** The table is as the job describes it; RENAME TABLES takes the name of the schema in lower case. */
  ghost predicate AsIn(t: TableInfo, job: Job, id: ID, schemas: map<ID, DBInfo>)
    requires Carries(job, id)
  {
    var raw, d := RawOf(job, id), PlaceOf(job, id);
    && d in schemas && t.id == id && t.schemaID == d
    && t.name == TableName(if job.kind.RenameTables? then schemas[d].lowerName else schemas[d].name, raw.name)
    && t.partitions == raw.partitions && t.detail == raw.detail && t.version == job.finishedTs
  }

  ghost predicate TableMoved(s: Snap, job: Job, s': Snap, id: ID) {
    && (id in s'.tables <==>
        || Creates(job, id)
        || (id in s.tables && !Drops(job, id) && !(job.kind.DropSchema? && id in ListOf(s, job.schemaID))))
    && (id in s'.tables ==>
          if Carries(job, id) then AsIn(s'.tables[id], job, id, s.schemas)
          else id in s.tables && s'.tables[id] == s.tables[id])
  }

  ghost predicate TruncatedMoved(s: Snap, job: Job, s': Snap, id: ID) {
    && (job.kind.ChangePartitions? ==> job.tableInfo.Some? && job.tableInfo.value.id in s.tables)
    && (id in s'.truncated <==>
        || id in s.truncated
        || (job.kind.TruncateTable? && job.tableID == id)
        || (job.kind.ChangePartitions? && id in Parts(s.tables[job.tableInfo.value.id])
            && id !in PartitionList(job.tableInfo.value.partitions)))
  }

  function Listings(s: Snap, d: ID, id: ID): nat {
    multiset(ListOf(s, d))[id]
  }

  ghost predicate ListMoved(s: Snap, job: Job, s': Snap, d: ID, id: ID) {
    var c := Listings(s, d, id);
    && (Drops(job, id) ==> id in s.tables)
    && Listings(s', d, id)
       == if DropsSchema(job, d) || (job.kind.CreateSchema? && Describes(job, d)) then 0
          else (if Drops(job, id) && s.tables[id].schemaID == d && c > 0 then c - 1 else c)
               + (if Creates(job, id) && PlaceOf(job, id) == d then 1 else 0)
  }

  /** What a job does, schema by schema and table by table. */
  ghost predicate Moved(s: Snap, job: Job, s': Snap, d: ID, id: ID) {
    SchemaMoved(s, job, s', d) && TableMoved(s, job, s', id) && TruncatedMoved(s, job, s', id)
    && ListMoved(s, job, s', d, id)
  }

  lemma {:induction false} WithoutOne(list: seq<ID>, id: ID)
    ensures multiset(Without(list, id)) == multiset(list) - multiset{id}
  {
    if list != [] {
      assert list == [list[0]] + list[1..];
      if list[0] != id {
        WithoutOne(list[1..], id);
      }
    }
  }

  lemma Struck(s: Snap, id0: ID, s': Snap, d: ID, id: ID)
    requires DropTableFrom(s, id0) == Ok(s')
    ensures id0 in s.tables && s' == s.(tables := s.tables - {id0}, tableInSchema := s'.tableInSchema,
                                        partitionTable := s'.partitionTable, tableNameToID := s'.tableNameToID)
    ensures var c := Listings(s, d, id);
            Listings(s', d, id) == if id == id0 && s.tables[id].schemaID == d && c > 0 then c - 1 else c
  {
    var home := s.tables[id0].schemaID;
    if d == home {
      WithoutOne(ListOf(s, d), id0);
    }
    assert ListOf(s', d) == if d == home then Without(ListOf(s, d), id0) else ListOf(s, d);
  }

  lemma Entered(s: Snap, t: TableInfo, s': Snap, d: ID, id: ID)
    requires CreateTableIn(s, t) == Ok(s')
    ensures t.id !in s.tables && s' == s.(tables := s.tables[t.id := t], tableInSchema := s'.tableInSchema,
                                          partitionTable := s'.partitionTable, tableNameToID := s'.tableNameToID)
    ensures Listings(s', d, id) == Listings(s, d, id) + if id == t.id && t.schemaID == d then 1 else 0
  {
    if d == t.schemaID {
      assert ListOf(s', d) == ListOf(s, d) + [t.id];
    } else {
      assert ListOf(s', d) == ListOf(s, d);
    }
  }

  lemma SchemaJob(s: Snap, job: Job, s': Snap, d: ID, id: ID)
    requires HandleDDL(s, job) == Ok(s') && (job.kind.CreateSchema? || job.kind.ModifySchema?)
    ensures Moved(s, job, s', d, id)
  {
  }

  lemma DropSchemaJob(s: Snap, job: Job, s': Snap, d: ID, id: ID)
    requires HandleDDL(s, job) == Ok(s') && job.kind.DropSchema?
    ensures Moved(s, job, s', d, id)
  {
  }

  lemma DropJob(s: Snap, job: Job, s': Snap, d: ID, id: ID)
    requires HandleDDL(s, job) == Ok(s') && job.kind.DropTable?
    ensures Moved(s, job, s', d, id)
  {
    Struck(s, job.tableID, DropTableFrom(s, job.tableID).value, d, id);
  }

  lemma CreateJob(s: Snap, job: Job, s': Snap, d: ID, id: ID)
    requires HandleDDL(s, job) == Ok(s') && job.kind.CreateTable?
    ensures Moved(s, job, s', d, id)
  {
    Entered(s, WrapFor(s, job), CreateTableIn(s, WrapFor(s, job)).value, d, id);
  }

  lemma AlterJob(s: Snap, job: Job, s': Snap, d: ID, id: ID)
    requires HandleDDL(s, job) == Ok(s') && (job.kind.AlterTable? || job.kind.ChangePartitions?)
    ensures Moved(s, job, s', d, id)
  {
  }

  ghost predicate InPlaceOf(s: Snap, job: Job, s': Snap, d: ID, id: ID) {
    && job.tableInfo.Some? && job.schemaID in s.schemas && job.tableID in s.tables
    && s'.schemas == s.schemas
    && s'.tables == (s.tables - {job.tableID})[job.tableInfo.value.id := WrapFor(s, job)]
    && s'.truncated == (if job.kind.TruncateTable? then s.truncated + {job.tableID} else s.truncated)
    && var c := Listings(s, d, id);
       Listings(s', d, id)
       == (if id == job.tableID && s.tables[id].schemaID == d && c > 0 then c - 1 else c)
          + (if id == job.tableInfo.value.id && job.schemaID == d then 1 else 0)
  }

  lemma OneInPlaceOf(s: Snap, job: Job, mid: Snap, s': Snap, d: ID, id: ID)
    requires job.tableInfo.Some? && job.schemaID in s.schemas
    requires DropTableFrom(s, job.tableID) == Ok(mid) && CreateTableIn(mid, WrapFor(s, job)) == Ok(s')
    ensures InPlaceOf(s, job, s'.(truncated := if job.kind.TruncateTable? then s.truncated + {job.tableID}
                                               else s.truncated, currentTs := job.finishedTs), d, id)
  {
    Struck(s, job.tableID, mid, d, id);
    Entered(mid, WrapFor(s, job), s', d, id);
  }

  lemma InPlaceOfMoves(s: Snap, job: Job, s': Snap, d: ID, id: ID)
    requires job.kind.RenameTable? || job.kind.TruncateTable?
    requires InPlaceOf(s, job, s', d, id)
    ensures Moved(s, job, s', d, id)
  {
  }

  lemma ReplaceJob(s: Snap, job: Job, s': Snap, d: ID, id: ID)
    requires HandleDDL(s, job) == Ok(s') && (job.kind.RenameTable? || job.kind.TruncateTable?)
    ensures Moved(s, job, s', d, id)
  {
    var mid := DropTableFrom(s, job.tableID).value;
    OneInPlaceOf(s, job, mid, CreateTableIn(mid, WrapFor(s, job)).value, d, id);
    InPlaceOfMoves(s, job, s', d, id);
  }

  /** The old tables go, one by one. */
  lemma {:induction false} AllGo(s: Snap, renamed: seq<Renamed>, s': Snap, d: ID, id: ID)
    requires DropAll(s, renamed) == Ok(s')
    ensures s'.schemas == s.schemas && s'.truncated == s.truncated && (Going(renamed, id) ==> id in s.tables)
    ensures id in s'.tables <==> id in s.tables && !Going(renamed, id)
    ensures id in s'.tables ==> s'.tables[id] == s.tables[id]
    ensures var c := Listings(s, d, id);
            Listings(s', d, id) == if Going(renamed, id) && s.tables[id].schemaID == d && c > 0 then c - 1 else c
    decreases |renamed|
  {
    if renamed != [] {
      var mid := DropTableFrom(s, renamed[0].oldID).value;
      Struck(s, renamed[0].oldID, mid, d, id);
      AllGo(mid, renamed[1..], s', d, id);
    }
  }

  /** The new ones come, one by one. */
  lemma {:induction false} AllCome(s: Snap, renamed: seq<Renamed>, ts: nat, s': Snap, d: ID, id: ID)
    requires CreateAll(s, renamed, ts) == Ok(s')
    ensures s'.schemas == s.schemas && s'.truncated == s.truncated
    ensures var r := Coming(renamed, id);
            && (id in s'.tables <==> id in s.tables || r.Some?)
            && (r.Some? ==> id !in s.tables && r.value.schemaID in s.schemas && r.value.table.id == id
                            && s'.tables[id] == RenamedTo(s, r.value, ts))
            && (r.None? && id in s.tables ==> s'.tables[id] == s.tables[id])
            && Listings(s', d, id) == Listings(s, d, id) + if r.Some? && r.value.schemaID == d then 1 else 0
    decreases |renamed|
  {
    if renamed != [] {
      var t := RenamedTo(s, renamed[0], ts);
      var mid := CreateTableIn(s, t).value;
      Entered(s, t, mid, d, id);
      AllCome(mid, renamed[1..], ts, s', d, id);
    }
  }

  lemma RenameTablesJob(s: Snap, job: Job, s': Snap, d: ID, id: ID)
    requires HandleDDL(s, job) == Ok(s') && job.kind.RenameTables?
    ensures Moved(s, job, s', d, id)
  {
    var mid := DropAll(s, job.renamed).value;
    AllGo(s, job.renamed, mid, d, id);
    AllCome(mid, job.renamed, job.finishedTs, s', d, id);
  }

  lemma OneJob(s: Snap, job: Job, s': Snap, d: ID, id: ID)
    requires HandleDDL(s, job) == Ok(s')
    ensures Moved(s, job, s', d, id)
  {
    match job.kind
    case CreateSchema => SchemaJob(s, job, s', d, id);
    case ModifySchema => SchemaJob(s, job, s', d, id);
    case DropSchema => DropSchemaJob(s, job, s', d, id);
    case DropTable => DropJob(s, job, s', d, id);
    case CreateTable => CreateJob(s, job, s', d, id);
    case RenameTable => ReplaceJob(s, job, s', d, id);
    case TruncateTable => ReplaceJob(s, job, s', d, id);
    case ChangePartitions => AlterJob(s, job, s', d, id);
    case AlterTable => AlterJob(s, job, s', d, id);
    case RenameTables => RenameTablesJob(s, job, s', d, id);
  }

  // ----- A history -----

  ghost predicate SchemaTold(init: Snap, jobs: seq<Job>, n: nat, s: Snap, d: ID)
    requires n <= |jobs|
  {
    && (d in s.schemas <==> SchemaExists(init, jobs, n, d))
    && (d in s.schemas ==>
          match LastOnSchema(jobs, n, d)
          case Some(k) => s.schemas[d] == jobs[k].dbInfo.value
          case None => s.schemas[d] == init.schemas[d])
  }

  /** The table, if it exists, is as the last job that carried it describes it; the name of the schema is the
      one it had then. */
  ghost predicate TableTold(init: Snap, jobs: seq<Job>, states: seq<Snap>, n: nat, id: ID)
    requires n <= |jobs| && n < |states|
  {
    var s := states[n];
    && (id in s.tables <==> Exists(init, jobs, n, id))
    && (id in s.tables ==>
          match LastCarrier(jobs, n, id)
          case Some(k) => AsIn(s.tables[id], jobs[k], id, states[k].schemas)
          case None => id in init.tables && s.tables[id] == init.tables[id])
  }

  lemma JobAt(init: Snap, jobs: seq<Job>, states: seq<Snap>, n: nat, d: ID, id: ID)
    requires Chained(init, jobs, states) && n < |jobs|
    ensures Moved(states[n], jobs[n], states[n + 1], d, id)
  {
    ChainAt(init, jobs, states, n);
    OneJob(states[n], jobs[n], states[n + 1], d, id);
  }

  lemma {:induction false} SchemasAre(init: Snap, jobs: seq<Job>, states: seq<Snap>, n: nat, d: ID)
    requires Chained(init, jobs, states) && n <= |jobs|
    ensures SchemaTold(init, jobs, n, states[n], d)
  {
    if n > 0 {
      SchemasAre(init, jobs, states, n - 1, d);
      JobAt(init, jobs, states, n - 1, d, 0);
    }
  }

  lemma TableStep(init: Snap, jobs: seq<Job>, states: seq<Snap>, n: nat, id: ID)
    requires n < |jobs| && n + 1 < |states|
    requires TableTold(init, jobs, states, n, id)
    requires TableMoved(states[n], jobs[n], states[n + 1], id)
    requires jobs[n].kind.DropSchema? ==>
               Listings(states[n], jobs[n].schemaID, id) == Count(init, jobs, n, id, jobs[n].schemaID)
    ensures TableTold(init, jobs, states, n + 1, id)
  {
  }

  lemma ListStep(init: Snap, jobs: seq<Job>, states: seq<Snap>, n: nat, d: ID, id: ID)
    requires n < |jobs| && n + 1 < |states|
    requires TableTold(init, jobs, states, n, id)
    requires ListMoved(states[n], jobs[n], states[n + 1], d, id)
    requires Listings(states[n], d, id) == Count(init, jobs, n, id, d)
    ensures Listings(states[n + 1], d, id) == Count(init, jobs, n + 1, id, d)
  {
    if id in states[n].tables {
      assert SchemaOf(init, jobs, n, id) == Some(states[n].tables[id].schemaID);
    }
  }

  /** Which tables there are after a history, what they are, and which schemas list them. */
  lemma {:induction false} TablesAre(init: Snap, jobs: seq<Job>, states: seq<Snap>, n: nat, d: ID, id: ID)
    requires Chained(init, jobs, states) && n <= |jobs|
    ensures TableTold(init, jobs, states, n, id)
    ensures Listings(states[n], d, id) == Count(init, jobs, n, id, d)
  {
    if n > 0 {
      TablesAre(init, jobs, states, n - 1, d, id);
      TablesAre(init, jobs, states, n - 1, jobs[n - 1].schemaID, id);
      JobAt(init, jobs, states, n - 1, d, id);
      TableStep(init, jobs, states, n - 1, id);
      ListStep(init, jobs, states, n - 1, d, id);
    }
  }

  lemma PartsAre(init: Snap, jobs: seq<Job>, states: seq<Snap>, n: nat, id: ID)
    requires Chained(init, jobs, states) && n <= |jobs| && id in states[n].tables
    ensures Parts(states[n].tables[id]) == LastParts(init, jobs, n, id)
  {
    TablesAre(init, jobs, states, n, 0, id);
  }

  lemma TruncatedStep(init: Snap, jobs: seq<Job>, states: seq<Snap>, n: nat, id: ID)
    requires Chained(init, jobs, states) && n < |jobs|
    ensures id in states[n + 1].truncated <==> id in states[n].truncated || Truncates(init, jobs, n, id)
  {
    JobAt(init, jobs, states, n, 0, id);
    if jobs[n].kind.ChangePartitions? {
      PartsAre(init, jobs, states, n, jobs[n].tableInfo.value.id);
    }
  }

  /** The IDs that are gone for good are those of truncated tables and of partitions lost. */
  lemma {:induction false} TruncatedAre(init: Snap, jobs: seq<Job>, states: seq<Snap>, n: nat, id: ID)
    requires Chained(init, jobs, states) && n <= |jobs|
    ensures id in states[n].truncated <==>
            id in init.truncated || exists i: nat :: i < n && Truncates(init, jobs, i, id)
  {
    if n > 0 {
      TruncatedAre(init, jobs, states, n - 1, id);
      TruncatedStep(init, jobs, states, n - 1, id);
    }
  }

  /** Where the lists are in order, a table goes with the schema it was last said to be in. */
  lemma GoesWithItsSchema(init: Snap, jobs: seq<Job>, states: seq<Snap>, i: nat, id: ID)
    requires Chained(init, jobs, states) && i < |jobs|
    requires jobs[i].kind.DropSchema? && Consistent(states[i])
    ensures Ends(init, jobs, i, id) <==>
            Exists(init, jobs, i, id) && SchemaOf(init, jobs, i, id) == Some(jobs[i].schemaID)
  {
    var s, d := states[i], jobs[i].schemaID;
    TablesAre(init, jobs, states, i, d, id);
    ChainAt(init, jobs, states, i);
    assert ListOk(s.tableInSchema[d], s.tables, d);
    if id in s.tables {
      assert SchemaOf(init, jobs, i, id) == Some(s.tables[id].schemaID);
    }
  }

  // ----- A lookup -----

  /** Without RENAME TABLES the snapshot found at a timestamp has taken in just the jobs finished by then. */
  lemma LatestCuts(init: Snap, jobs: seq<Job>, states: seq<Snap>, ts: nat, k: nat)
    requires Chained(init, jobs, states) && NoRenames(jobs) && IsLatest(states, ts, k)
    ensures forall i :: 0 <= i < |jobs| && !Silent(jobs[i]) ==> (i < k <==> jobs[i].finishedTs <= ts)
  {
    forall i | 0 <= i < |jobs| && !Silent(jobs[i]) ensures i < k <==> jobs[i].finishedTs <= ts {
      ChainAt(init, jobs, states, i);
      AcceptedStep(states[i], jobs[i], states[i + 1]);
      if i < k {
        assert NotAfter(states[i + 1], states[k]);
      }
    }
  }

  // ----- When a job succeeds -----

  /** What a job needs of the snapshot. */
  predicate Possible(s: Snap, job: Job) {
    match job.kind
    case CreateSchema => job.dbInfo.Some? && job.dbInfo.value.id !in s.schemas
    case ModifySchema => job.schemaID in s.schemas && job.dbInfo.Some? && job.dbInfo.value.id in s.schemas
    case DropSchema => job.dbInfo.Some? && job.schemaID in s.schemas
    case CreateTable => job.schemaID in s.schemas && job.tableInfo.Some? && job.tableInfo.value.id !in s.tables
    case DropTable => job.schemaID in s.schemas && job.tableID in s.tables
    case RenameTable => CanReplace(s, job)
    case TruncateTable => CanReplace(s, job)
    case ChangePartitions =>
      && job.schemaID in s.schemas && job.tableInfo.Some? && job.tableInfo.value.id in s.tables
      && job.tableInfo.value.partitions.Some? && s.tables[job.tableInfo.value.id].partitions.Some?
    case AlterTable => job.schemaID in s.schemas && (job.tableInfo.None? || job.tableInfo.value.id in s.tables)
    case RenameTables => CanRename(s, job.renamed)
  }

  /** The old tables are there, each named once; the new ones have a schema to go to, and an ID that is free
      once the old ones are gone. */
  predicate CanRename(s: Snap, renamed: seq<Renamed>) {
    && AllThere(s.tables.Keys, renamed)
    && AllWelcome((set id | id in s.tables && !Going(renamed, id)), s.schemas.Keys, renamed)
  }

  predicate AllThere(ids: set<ID>, renamed: seq<Renamed>) {
    && (forall i :: 0 <= i < |renamed| ==> renamed[i].oldID in ids)
    && (forall i, j :: 0 <= i < j < |renamed| ==> renamed[i].oldID != renamed[j].oldID)
  }

  predicate AllWelcome(ids: set<ID>, schemas: set<ID>, renamed: seq<Renamed>) {
    && (forall i :: 0 <= i < |renamed| ==> renamed[i].schemaID in schemas && renamed[i].table.id !in ids)
    && (forall i, j :: 0 <= i < j < |renamed| ==> renamed[i].table.id != renamed[j].table.id)
  }

  lemma OneThere(ids: set<ID>, renamed: seq<Renamed>)
    requires renamed != []
    ensures AllThere(ids, renamed) <==>
            renamed[0].oldID in ids && AllThere(ids - {renamed[0].oldID}, renamed[1..])
  {
    var rest := renamed[1..];
    assert forall i :: 0 <= i < |rest| ==> rest[i] == renamed[i + 1];
    if renamed[0].oldID in ids && AllThere(ids - {renamed[0].oldID}, rest) {
      forall i, j | 0 <= i < j < |renamed| ensures renamed[i].oldID != renamed[j].oldID {
        assert renamed[j] == rest[j - 1];
        assert i > 0 ==> renamed[i] == rest[i - 1];
      }
      forall i | 0 <= i < |renamed| ensures renamed[i].oldID in ids { assert i > 0 ==> renamed[i] == rest[i - 1]; }
    }
  }

  lemma OneWelcome(ids: set<ID>, schemas: set<ID>, renamed: seq<Renamed>)
    requires renamed != []
    ensures AllWelcome(ids, schemas, renamed) <==>
            && renamed[0].schemaID in schemas && renamed[0].table.id !in ids
            && AllWelcome(ids + {renamed[0].table.id}, schemas, renamed[1..])
  {
    var rest, first := renamed[1..], renamed[0].table.id;
    assert forall i :: 0 <= i < |rest| ==> rest[i] == renamed[i + 1];
    if renamed[0].schemaID in schemas && first !in ids && AllWelcome(ids + {first}, schemas, rest) {
      forall i, j | 0 <= i < j < |renamed| ensures renamed[i].table.id != renamed[j].table.id {
        assert renamed[j] == rest[j - 1];
        assert i > 0 ==> renamed[i] == rest[i - 1];
      }
      forall i | 0 <= i < |renamed| ensures renamed[i].schemaID in schemas && renamed[i].table.id !in ids {
        assert i > 0 ==> renamed[i] == rest[i - 1];
      }
    }
  }

  /** Every table is in a schema that has a list. */
  ghost predicate Homed(s: Snap) {
    s.tableInSchema.Keys == s.schemas.Keys && forall id :: id in s.tables ==> s.tables[id].schemaID in s.tableInSchema
  }

  lemma {:induction false} GoesExactly(s: Snap, renamed: seq<Renamed>)
    requires Homed(s)
    ensures DropAll(s, renamed).Ok? <==> AllThere(s.tables.Keys, renamed)
    ensures DropAll(s, renamed).Ok? ==> Homed(DropAll(s, renamed).value)
    decreases |renamed|
  {
    if renamed != [] {
      OneThere(s.tables.Keys, renamed);
      if renamed[0].oldID in s.tables {
        var mid := DropTableFrom(s, renamed[0].oldID).value;
        assert mid.tables.Keys == s.tables.Keys - {renamed[0].oldID};
        GoesExactly(mid, renamed[1..]);
      }
    }
  }

  lemma {:induction false} ComesExactly(s: Snap, renamed: seq<Renamed>, ts: nat)
    requires Homed(s)
    ensures CreateAll(s, renamed, ts).Ok? <==> AllWelcome(s.tables.Keys, s.schemas.Keys, renamed)
    decreases |renamed|
  {
    if renamed != [] {
      OneWelcome(s.tables.Keys, s.schemas.Keys, renamed);
      if renamed[0].schemaID in s.schemas && renamed[0].table.id !in s.tables {
        var mid := CreateTableIn(s, RenamedTo(s, renamed[0], ts)).value;
        assert mid.tables.Keys == s.tables.Keys + {renamed[0].table.id};
        ComesExactly(mid, renamed[1..], ts);
      }
    }
  }

  lemma RenamesExactly(s: Snap, job: Job)
    requires Homed(s) && job.kind.RenameTables?
    ensures HandleDDL(s, job).Ok? <==> CanRename(s, job.renamed)
  {
    GoesExactly(s, job.renamed);
    if DropAll(s, job.renamed).Ok? {
      var mid := DropAll(s, job.renamed).value;
      forall id ensures id in mid.tables <==> id in s.tables && !Going(job.renamed, id) {
        AllGo(s, job.renamed, mid, 0, id);
      }
      AllGo(s, job.renamed, mid, 0, 0);
      assert mid.tables.Keys == set id | id in s.tables && !Going(job.renamed, id);
      ComesExactly(mid, job.renamed, job.finishedTs);
    }
  }

  predicate CanReplace(s: Snap, job: Job) {
    && job.schemaID in s.schemas && job.tableInfo.Some? && job.tableID in s.tables
    && (job.tableInfo.value.id in s.tables ==> job.tableInfo.value.id == job.tableID)
  }

  lemma SucceedsExactly(s: Snap, job: Job)
    requires Consistent(s)
    ensures HandleDDL(s, job).Ok? <==> Possible(s, job)
  {
    if job.kind.RenameTables? {
      assert Homed(s);
      RenamesExactly(s, job);
    } else {
      OthersSucceedExactly(s, job);
    }
  }

  lemma OthersSucceedExactly(s: Snap, job: Job)
    requires Consistent(s) && !job.kind.RenameTables?
    ensures HandleDDL(s, job).Ok? <==> Possible(s, job)
  {
    if job.kind.DropSchema? && job.schemaID in s.schemas {
      assert ListOk(s.tableInSchema[job.schemaID], s.tables, job.schemaID);
    }
  }

  /** What stands in the way of a job that fails with the error. */
  predicate Reason(s: Snap, job: Job, e: Error) {
    match e
    case SchemaExists => job.kind.CreateSchema? && job.dbInfo.Some? && job.dbInfo.value.id in s.schemas
    case SchemaNotFound =>
      job.schemaID !in s.schemas || (job.kind.ModifySchema? && job.dbInfo.Some? && job.dbInfo.value.id !in s.schemas)
    case TableExists => exists id :: id in s.tables && Creates(job, id)
    case TableNotFound =>
      || (Drops(job, job.tableID) && job.tableID !in s.tables)
      || (job.tableInfo.Some? && !Creates(job, job.tableInfo.value.id)
          && (job.tableInfo.value.id !in s.tables || job.tableInfo.value.partitions.None?
              || s.tables[job.tableInfo.value.id].partitions.None?))
    case Crash => job.dbInfo.None? || job.tableInfo.None?
  }

  lemma FailsForReason(s: Snap, job: Job)
    requires Consistent(s) && !TrueRename(job) && HandleDDL(s, job).Failed?
    ensures Reason(s, job, HandleDDL(s, job).error)
  {
    SucceedsExactly(s, job);
  }
}
