/** The indexes of a snapshot agree with each other, and every DDL job keeps them so. */
module SchemaConsistency {
  import opened SchemaSpec

  type Tables = map<ID, TableInfo>

  ghost predicate IDsOk(tables: Tables) {
    forall id :: id in tables ==> tables[id].id == id
  }

  /** Table names lead to the live table, and every live table has its name. */
  ghost predicate NamesOk(names: map<TableName, ID>, tables: Tables) {
    && (forall n :: n in names ==> names[n] in tables && tables[names[n]].name == n)
    && (forall id :: id in tables ==> tables[id].name in names && names[tables[id].name] == id)
  }

  ghost predicate Covered(parts: Tables, t: TableInfo) {
    forall p :: p in Parts(t) ==> p in parts && parts[p] == t
  }

  ghost predicate Live(parts: Tables, tables: Tables, p: ID)
    requires p in parts
  {
    parts[p].id in tables && tables[parts[p].id] == parts[p] && p in Parts(parts[p])
  }

  /** The partition map is exactly the union of the live tables' partitions. */
  ghost predicate PartitionsOk(parts: Tables, tables: Tables) {
    && (forall id {:trigger Covered(parts, tables[id])} :: id in tables ==> Covered(parts, tables[id]))
    && (forall p {:trigger Live(parts, tables, p)} :: p in parts ==> Live(parts, tables, p))
  }

  /** The list holds exactly the tables of the schema, without duplicates. */
  ghost predicate ListOk(list: seq<ID>, tables: Tables, d: ID) {
    && NoDuplicates(list)
    && forall id :: id in list <==> id in tables && tables[id].schemaID == d
  }

  ghost predicate ListsOk(lists: map<ID, seq<ID>>, schemas: set<ID>, tables: Tables) {
    && lists.Keys == schemas
    && (forall d {:trigger ListOk(lists[d], tables, d)} :: d in lists ==> ListOk(lists[d], tables, d))
    && (forall id :: id in tables ==> tables[id].schemaID in schemas)
  }

  /** Schema names lead to the schema. */
  ghost predicate SchemasOk(names: map<string, ID>, schemas: map<ID, DBInfo>) {
    && (forall d :: d in schemas ==> schemas[d].id == d && schemas[d].name in names && names[schemas[d].name] == d)
    && (forall n :: n in names ==> names[n] in schemas && schemas[names[n]].name == n)
  }

  /** Tables are named after their schema. */
  ghost predicate NamedAfter(tables: Tables, schemas: map<ID, DBInfo>) {
    forall id :: id in tables && tables[id].schemaID in schemas ==>
        tables[id].name.schema == schemas[tables[id].schemaID].name
  }

  /** The indexes agree with the tables and schemas there are. */
  ghost predicate Indexed(s: Snap) {
    && IDsOk(s.tables)
    && NamesOk(s.tableNameToID, s.tables)
    && PartitionsOk(s.partitionTable, s.tables)
    && ListsOk(s.tableInSchema, s.schemas.Keys, s.tables)
    && SchemasOk(s.schemaNameToID, s.schemas)
  }

  ghost predicate Consistent(s: Snap) {
    Indexed(s) && NamedAfter(s.tables, s.schemas)
  }

  // ----- Lists of tables -----

  lemma {:induction false} WithoutHolds(list: seq<ID>, id: ID)
    requires NoDuplicates(list)
    ensures NoDuplicates(Without(list, id))
    ensures forall x :: x in Without(list, id) <==> x in list && x != id
  {
    if list != [] {
      var rest := list[1..];
      assert forall x :: x in list <==> x == list[0] || x in rest;
      WithoutHolds(rest, id);
      if list[0] != id {
        var r := Without(rest, id);
        forall i, j | 0 <= i < j < |[list[0]] + r| ensures ([list[0]] + r)[i] != ([list[0]] + r)[j] {
          assert r[j - 1] in rest;
        }
      }
    }
  }

  lemma ListAdd(lists: map<ID, seq<ID>>, schemas: set<ID>, tables: Tables, t: TableInfo)
    requires ListsOk(lists, schemas, tables) && t.schemaID in lists && t.id !in tables
    ensures ListsOk(lists[t.schemaID := lists[t.schemaID] + [t.id]], schemas, tables[t.id := t])
  {
    var list := lists[t.schemaID];
    var lists', tables' := lists[t.schemaID := list + [t.id]], tables[t.id := t];
    assert ListOk(list, tables, t.schemaID);
    forall d | d in lists' ensures ListOk(lists'[d], tables', d) {
      assert ListOk(lists[d], tables, d);
      assert d == t.schemaID ==> forall x :: x in list + [t.id] <==> x in list || x == t.id;
    }
  }

  lemma ListDrop(lists: map<ID, seq<ID>>, schemas: set<ID>, tables: Tables, id: ID)
    requires ListsOk(lists, schemas, tables) && id in tables && tables[id].schemaID in lists
    ensures var d := tables[id].schemaID;
            ListsOk(lists[d := Without(lists[d], id)], schemas, tables - {id})
  {
    var c := tables[id].schemaID;
    var lists', tables' := lists[c := Without(lists[c], id)], tables - {id};
    assert ListOk(lists[c], tables, c);
    WithoutHolds(lists[c], id);
    forall d | d in lists' ensures ListOk(lists'[d], tables', d) {
      assert ListOk(lists[d], tables, d);
    }
  }

  lemma ListStay(lists: map<ID, seq<ID>>, schemas: set<ID>, tables: Tables, t: TableInfo)
    requires ListsOk(lists, schemas, tables) && t.id in tables && t.schemaID == tables[t.id].schemaID
    ensures ListsOk(lists, schemas, tables[t.id := t])
  {
    var tables' := tables[t.id := t];
    forall d | d in lists ensures ListOk(lists[d], tables', d) {
      assert ListOk(lists[d], tables, d);
    }
  }

  // ----- Partitions -----

  lemma TablePartsHold(parts: Tables, t: TableInfo)
    ensures WithTableParts(parts, t).Keys == parts.Keys + Parts(t)
    ensures forall p :: p in WithTableParts(parts, t) ==>
              WithTableParts(parts, t)[p] == if p in Parts(t) then t else parts[p]
  {
  }

  /** A table comes, or comes instead of its former self: its partitions were not another table's. */
  lemma PartsSet(parts: Tables, tables: Tables, t: TableInfo, gone: set<ID>)
    requires IDsOk(tables) && PartitionsOk(parts, tables)
    requires forall p :: p in Parts(t) && p in parts ==> parts[p].id == t.id
    requires gone == (if t.id in tables then Parts(tables[t.id]) else {}) - Parts(t)
    ensures PartitionsOk(WithTableParts(parts, t) - gone, tables[t.id := t])
  {
    TablePartsHold(parts, t);
    var parts', tables' := WithTableParts(parts, t) - gone, tables[t.id := t];
    forall id | id in tables' ensures Covered(parts', tables'[id]) {
      if id != t.id {
        assert Covered(parts, tables[id]);
        assert t.id in tables ==> Covered(parts, tables[t.id]);
      }
    }
    forall p | p in parts' ensures Live(parts', tables', p) {
      if p !in Parts(t) {
        assert Live(parts, tables, p);
      }
    }
  }

  lemma PartsDrop(parts: Tables, tables: Tables, id: ID)
    requires IDsOk(tables) && PartitionsOk(parts, tables) && id in tables
    ensures PartitionsOk(parts - Parts(tables[id]), tables - {id})
  {
    var parts', tables' := parts - Parts(tables[id]), tables - {id};
    assert Covered(parts, tables[id]);
    forall other | other in tables' ensures Covered(parts', tables'[other]) {
      assert Covered(parts, tables[other]);
    }
    forall p | p in parts' ensures Live(parts', tables', p) {
      assert Live(parts, tables, p);
    }
  }

  // ----- Operations -----

  /** The new table's name and partitions are not in use. */
  ghost predicate IsFree(s: Snap, t: TableInfo) {
    t.name !in s.tableNameToID && forall p :: p in Parts(t) ==> p !in s.partitionTable
  }

  /** And it is named after its schema. */
  ghost predicate IsNew(s: Snap, t: TableInfo) {
    IsFree(s, t) && (t.schemaID in s.schemas ==> t.name.schema == s.schemas[t.schemaID].name)
  }

  lemma CreateKeeps(s: Snap, t: TableInfo)
    requires Consistent(s) && IsNew(s, t) && CreateTableIn(s, t).Ok?
    ensures Consistent(CreateTableIn(s, t).value)
  {
    CreateIndexes(s, t);
  }

  lemma CreateIndexes(s: Snap, t: TableInfo)
    requires Indexed(s) && IsFree(s, t) && CreateTableIn(s, t).Ok?
    ensures Indexed(CreateTableIn(s, t).value)
  {
    ListAdd(s.tableInSchema, s.schemas.Keys, s.tables, t);
    PartsSet(s.partitionTable, s.tables, t, {});
    assert WithTableParts(s.partitionTable, t) - {} == WithTableParts(s.partitionTable, t);
  }

  lemma DropKeeps(s: Snap, id: ID)
    requires Consistent(s) && DropTableFrom(s, id).Ok?
    ensures Consistent(DropTableFrom(s, id).value)
  {
    ListDrop(s.tableInSchema, s.schemas.Keys, s.tables, id);
    PartsDrop(s.partitionTable, s.tables, id);
  }

  /** The table keeps its name and its schema. */
  ghost predicate KeepsPlace(s: Snap, t: TableInfo) {
    t.id in s.tables ==> t.name == s.tables[t.id].name && t.schemaID == s.tables[t.id].schemaID
  }

  lemma ReplaceKeeps(s: Snap, t: TableInfo)
    requires Consistent(s) && KeepsPlace(s, t) && ReplaceTableIn(s, t).Ok? && Parts(t) == Parts(s.tables[t.id])
    ensures Consistent(ReplaceTableIn(s, t).value)
  {
    ListStay(s.tableInSchema, s.schemas.Keys, s.tables, t);
    assert Covered(s.partitionTable, s.tables[t.id]);
    PartsSet(s.partitionTable, s.tables, t, {});
    assert WithTableParts(s.partitionTable, t) - {} == WithTableParts(s.partitionTable, t);
  }

  lemma UpdateKeeps(s: Snap, t: TableInfo)
    requires Consistent(s) && KeepsPlace(s, t) && UpdatePartitions(s, t).Ok?
    requires forall p :: p in Parts(t) && p in s.partitionTable ==> s.partitionTable[p].id == t.id
    ensures Consistent(UpdatePartitions(s, t).value)
  {
    ListStay(s.tableInSchema, s.schemas.Keys, s.tables, t);
    PartsSet(s.partitionTable, s.tables, t, Parts(s.tables[t.id]) - Parts(t));
  }

  lemma CreateSchemaKeeps(s: Snap, db: DBInfo)
    requires Consistent(s) && db.name !in s.schemaNameToID && CreateSchemaIn(s, db).Ok?
    ensures Consistent(CreateSchemaIn(s, db).value)
  {
    NewSchemaList(s.tableInSchema, s.schemas.Keys, s.tables, db.id);
    assert s.schemas[db.id := db].Keys == s.schemas.Keys + {db.id};
  }

  lemma NewSchemaList(lists: map<ID, seq<ID>>, schemas: set<ID>, tables: Tables, d: ID)
    requires ListsOk(lists, schemas, tables) && d !in schemas
    ensures ListsOk(lists[d := []], schemas + {d}, tables)
  {
    var lists' := lists[d := []];
    forall e | e in lists' ensures ListOk(lists'[e], tables, e) {
      assert e != d ==> ListOk(lists[e], tables, e);
    }
  }

  lemma ReplaceSchemaKeeps(s: Snap, db: DBInfo)
    requires Consistent(s) && ReplaceSchemaIn(s, db).Ok? && s.schemas[db.id].name == db.name
    ensures Consistent(ReplaceSchemaIn(s, db).value)
  {
    assert s.schemas[db.id := db].Keys == s.schemas.Keys;
  }

  lemma {:induction false} NamesOfHold(tables: Tables, list: seq<ID>)
    requires AllKnown(tables, list)
    ensures forall n :: n in NamesOf(tables, list) <==> exists i :: 0 <= i < |list| && tables[list[i]].name == n
    ensures forall p :: p in PartsOf(tables, list) <==> exists i :: 0 <= i < |list| && p in Parts(tables[list[i]])
  {
    if list != [] {
      var rest := list[1..];
      NamesOfHold(tables, rest);
      assert forall i :: 0 <= i < |rest| ==> rest[i] == list[i + 1];
      assert forall i :: 0 < i < |list| ==> list[i] == rest[i - 1];
    }
  }

  lemma DropSchemaParts(parts: Tables, tables: Tables, list: seq<ID>)
    requires IDsOk(tables) && PartitionsOk(parts, tables) && AllKnown(tables, list)
    ensures PartitionsOk(parts - PartsOf(tables, list), tables - Elements(list))
  {
    NamesOfHold(tables, list);
    var parts', tables' := parts - PartsOf(tables, list), tables - Elements(list);
    forall id | id in tables' ensures Covered(parts', tables'[id]) {
      assert Covered(parts, tables[id]);
      forall p | p in Parts(tables[id]) ensures p !in PartsOf(tables, list) {
        assert forall i :: 0 <= i < |list| ==> Covered(parts, tables[list[i]]) && tables[list[i]].id == list[i];
      }
    }
    forall p | p in parts' ensures Live(parts', tables', p) {
      assert Live(parts, tables, p);
    }
  }

  lemma DropSchemaNames(names: map<TableName, ID>, tables: Tables, list: seq<ID>)
    requires NamesOk(names, tables) && AllKnown(tables, list)
    ensures NamesOk(names - NamesOf(tables, list), tables - Elements(list))
  {
    NamesOfHold(tables, list);
  }

  lemma DropSchemaLists(lists: map<ID, seq<ID>>, schemas: set<ID>, tables: Tables, d: ID)
    requires ListsOk(lists, schemas, tables) && d in lists
    ensures ListsOk(lists - {d}, schemas - {d}, tables - Elements(lists[d]))
  {
    var lists', tables' := lists - {d}, tables - Elements(lists[d]);
    assert ListOk(lists[d], tables, d);
    forall e | e in lists' ensures ListOk(lists'[e], tables', e) {
      assert ListOk(lists[e], tables, e);
    }
  }

  lemma DropSchemaKeeps(s: Snap, d: ID)
    requires Consistent(s) && DropSchemaFrom(s, d).Ok?
    ensures Consistent(DropSchemaFrom(s, d).value)
  {
    var list := ListOf(s, d);
    DropSchemaParts(s.partitionTable, s.tables, list);
    DropSchemaNames(s.tableNameToID, s.tables, list);
    DropSchemaLists(s.tableInSchema, s.schemas.Keys, s.tables, d);
    assert (s.schemas - {d}).Keys == s.schemas.Keys - {d};
  }

  /** In a consistent snapshot every listed table is there, so dropping a schema cannot crash. */
  lemma DropSchemaSucceeds(s: Snap, d: ID)
    requires Consistent(s) && d in s.schemas
    ensures DropSchemaFrom(s, d).Ok?
  {
    assert ListOk(s.tableInSchema[d], s.tables, d);
  }

  // ----- Renaming several tables -----

  function RenamedTo(s: Snap, r: Renamed, ts: nat): TableInfo
    requires r.schemaID in s.schemas
  {
    Wrap(r.schemaID, s.schemas[r.schemaID].lowerName, ts, r.table)
  }

  /** When each of the new tables comes, its name and partitions are not in use. */
  ghost predicate AllFree(s: Snap, renamed: seq<Renamed>, ts: nat)
    decreases |renamed|
  {
    renamed != [] && renamed[0].schemaID in s.schemas && CreateTableIn(s, RenamedTo(s, renamed[0], ts)).Ok? ==>
      && IsFree(s, RenamedTo(s, renamed[0], ts))
      && AllFree(CreateTableIn(s, RenamedTo(s, renamed[0], ts)).value, renamed[1..], ts)
  }

  /** The schema the table moves to is spelled in lower case. */
  predicate LowerCase(s: Snap, r: Renamed) {
    r.schemaID in s.schemas ==> s.schemas[r.schemaID].lowerName == s.schemas[r.schemaID].name
  }

  predicate AllLowerCase(s: Snap, renamed: seq<Renamed>) {
    forall i :: 0 <= i < |renamed| ==> LowerCase(s, renamed[i])
  }

  lemma {:induction false} DropAllKeeps(s: Snap, renamed: seq<Renamed>)
    requires DropAll(s, renamed).Ok?
    ensures var s' := DropAll(s, renamed).value;
            s'.currentTs == s.currentTs && s'.schemas == s.schemas && (Consistent(s) ==> Consistent(s'))
    decreases |renamed|
  {
    if renamed != [] {
      if Consistent(s) { DropKeeps(s, renamed[0].oldID); }
      DropAllKeeps(DropTableFrom(s, renamed[0].oldID).value, renamed[1..]);
    }
  }

  /** Only whether tables are named after their schemas is at stake. */
  lemma {:induction false} CreateAllKeeps(s: Snap, renamed: seq<Renamed>, ts: nat)
    requires CreateAll(s, renamed, ts).Ok?
    ensures var s' := CreateAll(s, renamed, ts).value;
            && s'.currentTs == s.currentTs && s'.schemas == s.schemas
            && (NamedAfter(s'.tables, s.schemas) <==> NamedAfter(s.tables, s.schemas) && AllLowerCase(s, renamed))
            && (Indexed(s) && AllFree(s, renamed, ts) ==> Indexed(s'))
    decreases |renamed|
  {
    if renamed != [] {
      var r, rest := renamed[0], renamed[1..];
      var t := RenamedTo(s, r, ts);
      var s' := CreateTableIn(s, t).value;
      if Indexed(s) && IsFree(s, t) { CreateIndexes(s, t); }
      CreateAllKeeps(s', rest, ts);
      NamedOneMore(s, r, ts);
      LowerCaseOneMore(s, s', renamed);
    }
  }

  lemma LowerCaseOneMore(s: Snap, s': Snap, renamed: seq<Renamed>)
    requires s'.schemas == s.schemas && renamed != []
    ensures AllLowerCase(s, renamed) <==> LowerCase(s, renamed[0]) && AllLowerCase(s', renamed[1..])
  {
    var rest := renamed[1..];
    assert forall i :: 0 < i < |renamed| ==> renamed[i] == rest[i - 1];
    assert forall i :: 0 <= i < |rest| ==> rest[i] == renamed[i + 1];
  }

  lemma NamedOneMore(s: Snap, r: Renamed, ts: nat)
    requires r.schemaID in s.schemas && CreateTableIn(s, RenamedTo(s, r, ts)).Ok?
    ensures NamedAfter(CreateTableIn(s, RenamedTo(s, r, ts)).value.tables, s.schemas)
            <==> NamedAfter(s.tables, s.schemas) && LowerCase(s, r)
  {
    var t := RenamedTo(s, r, ts);
    var tables := CreateTableIn(s, t).value.tables;
    assert tables[t.id] == t && forall id :: id in s.tables ==> tables[id] == s.tables[id];
  }

  ghost predicate RenamesFree(s: Snap, job: Job) {
    DropAll(s, job.renamed).Ok? ==> AllFree(DropAll(s, job.renamed).value, job.renamed, job.finishedTs)
  }

  /** RENAME TABLES keeps a snapshot consistent exactly if all the schemas that tables move to are
      spelled in lower case. */
  lemma RenameKeepsExactly(s: Snap, job: Job)
    requires Consistent(s) && job.kind.RenameTables? && RenamesFree(s, job) && HandleDDL(s, job).Ok?
    ensures Consistent(HandleDDL(s, job).value) <==> AllLowerCase(s, job.renamed)
  {
    DropAllKeeps(s, job.renamed);
    var s' := DropAll(s, job.renamed).value;
    CreateAllKeeps(s', job.renamed, job.finishedTs);
    assert forall r :: LowerCase(s', r) <==> LowerCase(s, r);
  }

  // ----- Jobs -----

  /** What upstream promises of a job, given the snapshot it is applied to: names and partition
      IDs are unique, and only the jobs meant to do so change a table's name or partitions. */
  ghost predicate WellFormed(s: Snap, job: Job) {
    match job.kind
    case CreateSchema => job.dbInfo.Some? ==> job.dbInfo.value.name !in s.schemaNameToID
    case ModifySchema =>
      job.dbInfo.Some? && job.dbInfo.value.id in s.schemas ==>
          s.schemas[job.dbInfo.value.id].name == job.dbInfo.value.name
    case DropSchema => true
    case DropTable => true
    case CreateTable => job.tableInfo.Some? && job.schemaID in s.schemas ==> IsNew(s, WrapFor(s, job))
    case RenameTable => ReplacesOk(s, job)
    case TruncateTable => ReplacesOk(s, job)
    case ChangePartitions =>
      job.tableInfo.Some? && job.schemaID in s.schemas ==>
        && KeepsPlace(s, WrapFor(s, job))
        && forall p :: p in Parts(WrapFor(s, job)) && p in s.partitionTable ==>
             s.partitionTable[p].id == job.tableInfo.value.id
    case AlterTable =>
      job.tableInfo.Some? && job.schemaID in s.schemas ==>
        && KeepsPlace(s, WrapFor(s, job))
        && (job.tableInfo.value.id in s.tables ==> Parts(WrapFor(s, job)) == Parts(s.tables[job.tableInfo.value.id]))
    case RenameTables => RenamesFree(s, job) && AllLowerCase(s, job.renamed)
  }

  /** The name and partitions of the table that comes are free once the old table is gone. */
  ghost predicate ReplacesOk(s: Snap, job: Job) {
    job.tableInfo.Some? && job.schemaID in s.schemas && DropTableFrom(s, job.tableID).Ok? ==>
      IsNew(DropTableFrom(s, job.tableID).value, WrapFor(s, job))
  }

  lemma ReplacingKeeps(s: Snap, id: ID, t: TableInfo)
    requires Consistent(s) && Then(DropTableFrom(s, id), t).Ok?
    requires DropTableFrom(s, id).Ok? ==> IsNew(DropTableFrom(s, id).value, t)
    ensures Consistent(Then(DropTableFrom(s, id), t).value)
  {
    DropKeeps(s, id);
    CreateKeeps(DropTableFrom(s, id).value, t);
  }

  /** Every job that succeeds keeps the snapshot consistent. */
  lemma JobKeeps(s: Snap, job: Job)
    requires Consistent(s) && WellFormed(s, job) && HandleDDL(s, job).Ok?
    ensures Consistent(HandleDDL(s, job).value)
  {
    match job.kind
    case CreateSchema => CreateSchemaKeeps(s, job.dbInfo.value);
    case ModifySchema => ReplaceSchemaKeeps(s, job.dbInfo.value);
    case DropSchema => DropSchemaKeeps(s, job.schemaID);
    case DropTable => DropKeeps(s, job.tableID);
    case CreateTable => CreateKeeps(s, WrapFor(s, job));
    case RenameTable => ReplacingKeeps(s, job.tableID, WrapFor(s, job));
    case TruncateTable => ReplacingKeeps(s, job.tableID, WrapFor(s, job));
    case ChangePartitions => UpdateKeeps(s, WrapFor(s, job));
    case AlterTable =>
      if job.tableInfo.Some? {
        ReplaceKeeps(s, WrapFor(s, job));
      }
    case RenameTables => RenameKeepsExactly(s, job);
  }
}
