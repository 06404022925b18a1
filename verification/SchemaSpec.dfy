/** Schema snapshots as values, and what each DDL job does to one. */
module SchemaSpec {
  datatype Option<+T> = None | Some(value: T)

  type ID = nat

  datatype DBInfo = DBInfo(id: ID, name: string, lowerName: string)

  datatype TableName = TableName(schema: string, table: string)

  /** A table as the job carries it; `detail` stands for its columns and indexes. */
  datatype RawTable = RawTable(id: ID, name: string, partitions: Option<seq<ID>>, detail: nat)

  /** A table as the snapshot keeps it. */
  datatype TableInfo = TableInfo(id: ID, schemaID: ID, name: TableName, partitions: Option<seq<ID>>, detail: nat,
                                 version: nat)

  datatype Snap = Snap(
    tableNameToID: map<TableName, ID>,
    schemaNameToID: map<string, ID>,
    schemas: map<ID, DBInfo>,
    tables: map<ID, TableInfo>,
    partitionTable: map<ID, TableInfo>,
    tableInSchema: map<ID, seq<ID>>,
    truncated: set<ID>,
    currentTs: nat)

  datatype Kind =
    | CreateSchema
    | ModifySchema
    | DropSchema
    | CreateTable
    | DropTable
    | RenameTable
    | TruncateTable
    | ChangePartitions
    | RenameTables
    | AlterTable

  datatype Renamed = Renamed(oldID: ID, schemaID: ID, table: RawTable)

  datatype Job = Job(kind: Kind, schemaID: ID, tableID: ID, finishedTs: nat, dbInfo: Option<DBInfo>,
                     tableInfo: Option<RawTable>, renamed: seq<Renamed>)

  // `Crash` is a nil dereference.
  datatype Error = SchemaNotFound | SchemaExists | TableNotFound | TableExists | Crash

  datatype Result<+T> = Ok(value: T) | Failed(error: Error)

  function Parts(t: TableInfo): set<ID> {
    if t.partitions.None? then {} else set p | p in t.partitions.value
  }

  function Elements(list: seq<ID>): set<ID> {
    set id | id in list
  }

  predicate NoDuplicates(list: seq<ID>) {
    forall i, j :: 0 <= i < j < |list| ==> list[i] != list[j]
  }

  /** Maps every partition in the list to the table. */
  function WithParts(m: map<ID, TableInfo>, parts: seq<ID>, t: TableInfo): (r: map<ID, TableInfo>)
    ensures r.Keys == m.Keys + Elements(parts)
    ensures forall p :: p in r ==> r[p] == if p in parts then t else m[p]
    decreases |parts|
  {
    if parts == [] then m else WithParts(m[parts[0] := t], parts[1..], t)
  }

  function WithTableParts(m: map<ID, TableInfo>, t: TableInfo): map<ID, TableInfo> {
    if t.partitions.None? then m else WithParts(m, t.partitions.value, t)
  }

  /** The list without the first occurrence of the ID. */
  function Without(list: seq<ID>, id: ID): seq<ID> {
    if list == [] then [] else if list[0] == id then list[1..] else [list[0]] + Without(list[1..], id)
  }

  // ----- Operations on a snapshot -----

  function CreateTableIn(s: Snap, t: TableInfo): Result<Snap> {
    if t.schemaID !in s.schemas || t.schemaID !in s.tableInSchema then Failed(SchemaNotFound)
    else if t.id in s.tables then Failed(TableExists)
    else Ok(s.(tableInSchema := s.tableInSchema[t.schemaID := s.tableInSchema[t.schemaID] + [t.id]],
               tables := s.tables[t.id := t],
               partitionTable := WithTableParts(s.partitionTable, t),
               tableNameToID := s.tableNameToID[t.name := t.id]))
  }

  function DropTableFrom(s: Snap, id: ID): Result<Snap> {
    if id !in s.tables then Failed(TableNotFound)
    else
      var t := s.tables[id];
      if t.schemaID !in s.tableInSchema then Failed(SchemaNotFound)
      else Ok(s.(tableInSchema := s.tableInSchema[t.schemaID := Without(s.tableInSchema[t.schemaID], id)],
                 tables := s.tables - {id},
                 partitionTable := s.partitionTable - Parts(t),
                 tableNameToID := s.tableNameToID - {t.name}))
  }

  function ReplaceTableIn(s: Snap, t: TableInfo): Result<Snap> {
    if t.id !in s.tables then Failed(TableNotFound)
    else Ok(s.(tables := s.tables[t.id := t], partitionTable := WithTableParts(s.partitionTable, t)))
  }

  function UpdatePartitions(s: Snap, t: TableInfo): Result<Snap> {
    if t.id !in s.tables || s.tables[t.id].partitions.None? || t.partitions.None? then Failed(TableNotFound)
    else
      var gone := Parts(s.tables[t.id]) - Parts(t);
      Ok(s.(tables := s.tables[t.id := t],
            partitionTable := WithTableParts(s.partitionTable, t) - gone,
            truncated := s.truncated + gone))
  }

  function CreateSchemaIn(s: Snap, db: DBInfo): Result<Snap> {
    if db.id in s.schemas then Failed(SchemaExists)
    else Ok(s.(schemas := s.schemas[db.id := db],
               schemaNameToID := s.schemaNameToID[db.name := db.id],
               tableInSchema := s.tableInSchema[db.id := []]))
  }

  function ReplaceSchemaIn(s: Snap, db: DBInfo): Result<Snap> {
    if db.id !in s.schemas then Failed(SchemaNotFound)
    else Ok(s.(schemas := s.schemas[db.id := db], schemaNameToID := s.schemaNameToID[db.name := db.id]))
  }

  function ListOf(s: Snap, schemaID: ID): seq<ID> {
    if schemaID in s.tableInSchema then s.tableInSchema[schemaID] else []
  }

  predicate AllKnown(tables: map<ID, TableInfo>, list: seq<ID>) {
    forall i :: 0 <= i < |list| ==> list[i] in tables
  }

  function NamesOf(tables: map<ID, TableInfo>, list: seq<ID>): set<TableName>
    requires AllKnown(tables, list)
  {
    if list == [] then {} else {tables[list[0]].name} + NamesOf(tables, list[1..])
  }

  function PartsOf(tables: map<ID, TableInfo>, list: seq<ID>): set<ID>
    requires AllKnown(tables, list)
  {
    if list == [] then {} else Parts(tables[list[0]]) + PartsOf(tables, list[1..])
  }

  /** A listed ID that is not a table, or that was listed before, is a nil dereference. */
  function DropSchemaFrom(s: Snap, id: ID): Result<Snap> {
    if id !in s.schemas then Failed(SchemaNotFound)
    else
      var list := ListOf(s, id);
      if !AllKnown(s.tables, list) || !NoDuplicates(list) then Failed(Crash)
      else Ok(s.(tables := s.tables - Elements(list),
                 partitionTable := s.partitionTable - PartsOf(s.tables, list),
                 tableNameToID := s.tableNameToID - NamesOf(s.tables, list),
                 schemas := s.schemas - {id},
                 tableInSchema := s.tableInSchema - {id},
                 schemaNameToID := s.schemaNameToID - {s.schemas[id].name}))
  }

  // ----- Jobs -----

  function Wrap(schemaID: ID, schemaName: string, ts: nat, raw: RawTable): TableInfo {
    TableInfo(raw.id, schemaID, TableName(schemaName, raw.name), raw.partitions, raw.detail, ts)
  }

  function WrapFor(s: Snap, job: Job): TableInfo
    requires job.schemaID in s.schemas && job.tableInfo.Some?
  {
    Wrap(job.schemaID, s.schemas[job.schemaID].name, job.finishedTs, job.tableInfo.value)
  }

  function Then(r: Result<Snap>, t: TableInfo): Result<Snap> {
    match r
    case Ok(s) => CreateTableIn(s, t)
    case Failed(_) => r
  }

  /** Drops all the old tables, then creates the new ones, under the lower-case schema name. */
  function DropAll(s: Snap, renamed: seq<Renamed>): Result<Snap>
    decreases |renamed|
  {
    if renamed == [] then Ok(s)
    else match DropTableFrom(s, renamed[0].oldID)
      case Ok(s') => DropAll(s', renamed[1..])
      case Failed(e) => Failed(e)
  }

  function CreateAll(s: Snap, renamed: seq<Renamed>, ts: nat): Result<Snap>
    decreases |renamed|
  {
    if renamed == [] then Ok(s)
    else if renamed[0].schemaID !in s.schemas then Failed(SchemaNotFound)
    else
      var r := renamed[0];
      match CreateTableIn(s, Wrap(r.schemaID, s.schemas[r.schemaID].lowerName, ts, r.table))
      case Ok(s') => CreateAll(s', renamed[1..], ts)
      case Failed(e) => Failed(e)
  }

  function RenameAll(s: Snap, job: Job): Result<Snap> {
    match DropAll(s, job.renamed)
    case Ok(s') => CreateAll(s', job.renamed, job.finishedTs)
    case Failed(e) => Failed(e)
  }

  predicate OnSchema(k: Kind) {
    k.CreateSchema? || k.DropSchema?
  }

  /** Jobs on a table take the name of its schema from the snapshot. */
  function Change(s: Snap, job: Job): Result<Snap> {
    if (OnSchema(job.kind) || job.kind.ModifySchema?) && job.dbInfo.None? then
      if job.kind.ModifySchema? && job.schemaID !in s.schemas then Failed(SchemaNotFound) else Failed(Crash)
    else if !OnSchema(job.kind) && job.schemaID !in s.schemas then Failed(SchemaNotFound)
    else match job.kind
      case CreateSchema => CreateSchemaIn(s, job.dbInfo.value)
      case ModifySchema => ReplaceSchemaIn(s, job.dbInfo.value)
      case DropSchema => DropSchemaFrom(s, job.schemaID)
      case DropTable => DropTableFrom(s, job.tableID)
      case RenameTables => Failed(Crash)
      case AlterTable => if job.tableInfo.None? then Ok(s) else ReplaceTableIn(s, WrapFor(s, job))
      case ChangePartitions => if job.tableInfo.None? then Failed(Crash) else UpdatePartitions(s, WrapFor(s, job))
      case CreateTable => if job.tableInfo.None? then Failed(Crash) else CreateTableIn(s, WrapFor(s, job))
      case RenameTable =>
        if job.tableInfo.None?
        then (if DropTableFrom(s, job.tableID).Ok? then Failed(Crash) else DropTableFrom(s, job.tableID))
        else Then(DropTableFrom(s, job.tableID), WrapFor(s, job))
      case TruncateTable =>
        if job.tableInfo.None?
        then (if DropTableFrom(s, job.tableID).Ok? then Failed(Crash) else DropTableFrom(s, job.tableID))
        else match Then(DropTableFrom(s, job.tableID), WrapFor(s, job))
          case Ok(s') => Ok(s'.(truncated := s'.truncated + {job.tableID}))
          case Failed(e) => Failed(e)
  }

  /** A job without table info is ignored. */
  predicate Ignored(job: Job) {
    job.kind.AlterTable? && job.tableInfo.None?
  }

  /** Renaming several tables, and an ignored job, leave the snapshot's timestamp as it was. */
  function HandleDDL(s: Snap, job: Job): Result<Snap> {
    if job.kind.RenameTables? then RenameAll(s, job)
    else match Change(s, job)
      case Ok(s') => Ok(if Ignored(job) then s' else s'.(currentTs := job.finishedTs))
      case Failed(e) => Failed(e)
  }
}
