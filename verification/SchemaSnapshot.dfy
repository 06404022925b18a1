/** A schema snapshot as the object that DDL jobs change in place. The lists of tables
    are slices, so a copy that shared them would be changed along with the original. */
module SchemaSnapshot {
  import opened SchemaSpec

  /** The first `len` elements of an array. */
  datatype Slice = Slice(arr: array<ID>, len: nat)

  ghost predicate Holds(s: Slice, list: seq<ID>)
    reads s.arr
  {
    s.len == |list| <= s.arr.Length && s.arr[..s.len] == list
  }

  lemma {:induction false} WithoutIs(list: seq<ID>, id: ID, i: nat)
    requires i < |list| && list[i] == id && forall k :: 0 <= k < i ==> list[k] != id
    ensures Without(list, id) == list[..i] + list[i + 1..]
  {
    if i > 0 {
      WithoutIs(list[1..], id, i - 1);
      assert list[..i] == [list[0]] + list[1..][..i - 1];
    }
  }

  lemma {:induction false} WithoutNone(list: seq<ID>, id: ID)
    requires forall k :: 0 <= k < |list| ==> list[k] != id
    ensures Without(list, id) == list
  {
    if list != [] {
      WithoutNone(list[1..], id);
    }
  }

  /** Moves the elements behind `i` one place forward. */
  method CloseGap(a: array<ID>, i: nat, len: nat)
    requires i < len <= a.Length
    modifies a
    ensures a[..len - 1] == old(a[..i] + a[i + 1..len])
  {
    var k := i;
    while k < len - 1
      invariant i <= k <= len - 1
      invariant forall j :: 0 <= j < i ==> a[j] == old(a[j])
      invariant forall j :: i <= j < k ==> a[j] == old(a[j + 1])
      invariant forall j :: k <= j < len ==> a[j] == old(a[j])
    {
      a[k] := a[k + 1];
      k := k + 1;
    }
  }

  method CopyOf(s: Slice, capacity: nat, ghost list: seq<ID>) returns (r: Slice)
    requires Holds(s, list) && s.len <= capacity
    ensures fresh(r.arr) && Holds(r, list) && r.arr.Length == capacity
  {
    var arr := new ID[capacity];
    var i := 0;
    while i < s.len
      invariant 0 <= i <= s.len && Holds(s, list) && arr[..i] == list[..i]
    {
      arr[i] := s.arr[i];
      i := i + 1;
    }
    r := Slice(arr, s.len);
  }

  method IndexOf(s: Slice, id: ID, ghost list: seq<ID>) returns (i: nat)
    requires Holds(s, list)
    ensures i <= |list| && (i < |list| ==> list[i] == id) && forall k :: 0 <= k < i ==> list[k] != id
  {
    i := 0;
    while i < s.len && s.arr[i] != id
      invariant 0 <= i <= s.len && forall k :: 0 <= k < i ==> list[k] != id
    {
      i := i + 1;
    }
  }

  /** The lists of tables by schema, each in an array of its own. */
  class TableLists {
    var slices: map<ID, Slice>
    ghost var lists: map<ID, seq<ID>>
    ghost var Repr: set<array<ID>>

    ghost predicate Apart()
      reads this
    {
      forall d, e :: d in slices && e in slices && d != e ==> slices[d].arr != slices[e].arr
    }

    ghost predicate Valid()
      reads this, Repr
    {
      && slices.Keys == lists.Keys
      && Apart()
      && forall d {:trigger slices[d]} :: d in slices ==> slices[d].arr in Repr && Holds(slices[d], lists[d])
    }

    constructor ()
      ensures Valid() && lists == map[] && Repr == {}
    {
      slices, lists, Repr := map[], map[], {};
    }

    /** Gives the schema a list in an array that no other list uses. */
    method Put(d: ID, s: Slice, ghost list: seq<ID>)
      requires Valid() && Holds(s, list)
      requires forall e :: e in slices && e != d ==> slices[e].arr != s.arr
      modifies this
      ensures Valid() && lists == old(lists)[d := list] && Repr == old(Repr) + {s.arr}
    {
      slices := slices[d := s];
      lists := lists[d := list];
      Repr := Repr + {s.arr};
    }

    method Delete(d: ID)
      requires Valid()
      modifies this
      ensures Valid() && lists == old(lists) - {d} && Repr == old(Repr)
    {
      slices := slices - {d};
      lists := lists - {d};
    }

    /** Goes into the spare room of the array if there is some, into a larger copy otherwise. */
    method Append(d: ID, id: ID)
      requires Valid() && d in lists
      modifies this, Repr
      ensures Valid() && lists == old(lists)[d := old(lists)[d] + [id]]
      ensures fresh(Repr - old(Repr))
    {
      var s := slices[d];
      ghost var list := lists[d];
      if s.len == s.arr.Length {
        s := CopyOf(s, 2 * s.len + 1, list);
      }
      ghost var before := lists;
      s.arr[s.len] := id;
      Replace(d, Slice(s.arr, s.len + 1), list + [id]);
    }

    /** The elements behind the removed one move up in place. */
    method Remove(d: ID, id: ID)
      requires Valid() && d in lists
      modifies this, Repr
      ensures Valid() && lists == old(lists)[d := Without(old(lists)[d], id)]
      ensures fresh(Repr - old(Repr))
    {
      var s := slices[d];
      ghost var list := lists[d];
      var i := IndexOf(s, id, list);
      if i == s.len {
        WithoutNone(list, id);
        return;
      }
      WithoutIs(list, id, i);
      CloseGap(s.arr, i, s.len);
      assert s.arr[..s.len - 1] == list[..i] + list[i + 1..];
      Replace(d, Slice(s.arr, s.len - 1), Without(list, id));
    }

    /** As `Put`, when the schema's own array has just been written to. */
    method Replace(d: ID, s: Slice, ghost list: seq<ID>)
      requires d in slices && slices.Keys == lists.Keys && Apart() && Holds(s, list)
      requires forall e :: e in slices && e != d ==>
                 slices[e].arr in Repr && slices[e].arr != s.arr && Holds(slices[e], lists[e])
      modifies this
      ensures Valid() && lists == old(lists)[d := list] && Repr == old(Repr) + {s.arr}
    {
      slices := slices[d := s];
      lists := lists[d := list];
      Repr := Repr + {s.arr};
    }

    /** Takes over one list, in a new array. */
    method CopyFrom(other: TableLists, d: ID)
      requires Valid() && other != this && other.Valid() && d in other.lists
      modifies this
      ensures Valid() && lists == old(lists)[d := other.lists[d]]
      ensures fresh(Repr - old(Repr))
    {
      var v := other.slices[d];
      var copy := CopyOf(v, v.len, other.lists[d]);
      Put(d, copy, other.lists[d]);
    }
  }

  /** Every list in a new array. */
  method CloneLists(other: TableLists) returns (c: TableLists)
    requires other.Valid()
    ensures fresh(c) && c.Valid() && c.lists == other.lists
    ensures fresh(c.Repr)
  {
    c := new TableLists();
    var todo := other.slices.Keys;
    while todo != {}
      invariant fresh(c) && c.Valid()
      invariant todo <= other.lists.Keys && c.lists.Keys == other.lists.Keys - todo
      invariant forall d :: d in c.lists ==> c.lists[d] == other.lists[d]
      invariant fresh(c.Repr)
    {
      var d :| d in todo;
      c.CopyFrom(other, d);
      todo := todo - {d};
    }
  }

  /** An operation that succeeds leaves the snapshot the specification gives; one that fails reports its error. */
  ghost predicate Outcome(r: Result<Snap>, err: Option<Error>, after: Snap) {
    if r.Ok? then err.None? && after == r.value else err == Some(r.error)
  }

  class Snapshot {
    var tableNameToID: map<TableName, ID>
    var schemaNameToID: map<string, ID>
    var schemas: map<ID, DBInfo>
    var tables: map<ID, TableInfo>
    var partitionTable: map<ID, TableInfo>
    const tableInSchema: TableLists
    var truncateTableID: set<ID>
    var currentTs: nat

    ghost predicate Valid()
      reads this, tableInSchema, tableInSchema.Repr
    {
      tableInSchema.Valid()
    }

    ghost function Footprint(): set<object>
      reads this, tableInSchema
    {
      {this, tableInSchema} + tableInSchema.Repr
    }

    ghost function Abs(): Snap
      reads this, tableInSchema
    {
      Snap(tableNameToID, schemaNameToID, schemas, tables, partitionTable, tableInSchema.lists, truncateTableID,
           currentTs)
    }

    constructor Empty()
      ensures Valid() && fresh(Footprint())
      ensures Abs() == Snap(map[], map[], map[], map[], map[], map[], {}, 0)
    {
      tableNameToID, schemaNameToID, schemas, tables, partitionTable := map[], map[], map[], map[], map[];
      truncateTableID, currentTs := {}, 0;
      tableInSchema := new TableLists();
    }

    /** The copy has the same content and nothing in common with the original. */
    constructor Clone(s: Snapshot)
      requires s.Valid()
      ensures Valid() && fresh(Footprint()) && Abs() == s.Abs()
    {
      tableNameToID, schemaNameToID, schemas, tables := s.tableNameToID, s.schemaNameToID, s.schemas, s.tables;
      partitionTable, truncateTableID, currentTs := s.partitionTable, s.truncateTableID, s.currentTs;
      var lists := CloneLists(s.tableInSchema);
      tableInSchema := lists;
    }

    method AddPartitions(t: TableInfo)
      modifies this`partitionTable
      ensures partitionTable == WithTableParts(old(partitionTable), t)
    {
      if t.partitions.Some? {
        var parts := t.partitions.value;
        var i := 0;
        while i < |parts|
          invariant 0 <= i <= |parts|
          invariant WithParts(partitionTable, parts[i..], t) == WithParts(old(partitionTable), parts, t)
        {
          partitionTable := partitionTable[parts[i] := t];
          assert parts[i..][1..] == parts[i + 1..];
          i := i + 1;
        }
      }
    }

    method DeletePartitions(t: TableInfo)
      modifies this`partitionTable
      ensures partitionTable == old(partitionTable) - Parts(t)
    {
      if t.partitions.Some? {
        var parts := t.partitions.value;
        var i := 0;
        while i < |parts|
          invariant 0 <= i <= |parts|
          invariant partitionTable == old(partitionTable) - Elements(parts[..i])
        {
          assert Elements(parts[..i + 1]) == Elements(parts[..i]) + {parts[i]};
          partitionTable := partitionTable - {parts[i]};
          i := i + 1;
        }
        assert parts[..i] == parts;
      }
    }

    method CreateTable(t: TableInfo) returns (err: Option<Error>)
      requires Valid()
      modifies Footprint()
      ensures Valid() && fresh(tableInSchema.Repr - old(tableInSchema.Repr))
      ensures Outcome(CreateTableIn(old(Abs()), t), err, Abs())
    {
      if t.schemaID !in schemas || t.schemaID !in tableInSchema.slices {
        return Some(SchemaNotFound);
      }
      if t.id in tables {
        return Some(TableExists);
      }
      tableInSchema.Append(t.schemaID, t.id);
      tables := tables[t.id := t];
      AddPartitions(t);
      tableNameToID := tableNameToID[t.name := t.id];
      return None;
    }

    method DropTable(id: ID) returns (err: Option<Error>)
      requires Valid()
      modifies Footprint()
      ensures Valid() && fresh(tableInSchema.Repr - old(tableInSchema.Repr))
      ensures Outcome(DropTableFrom(old(Abs()), id), err, Abs())
    {
      if id !in tables {
        return Some(TableNotFound);
      }
      var t := tables[id];
      if t.schemaID !in tableInSchema.slices {
        return Some(SchemaNotFound);
      }
      tableInSchema.Remove(t.schemaID, id);
      tables := tables - {id};
      DeletePartitions(t);
      tableNameToID := tableNameToID - {t.name};
      return None;
    }

    method ReplaceTable(t: TableInfo) returns (err: Option<Error>)
      modifies this
      ensures Outcome(ReplaceTableIn(old(Abs()), t), err, Abs())
      ensures err.None? <==> t.id in old(tables)
      ensures err.None? ==>
                && tables == old(tables)[t.id := t]
                && forall p :: p in Parts(t) ==> p in partitionTable && partitionTable[p] == t
    {
      if t.id !in tables {
        return Some(TableNotFound);
      }
      tables := tables[t.id := t];
      AddPartitions(t);
      return None;
    }

    method DropPartitions(gone: set<ID>)
      modifies this`partitionTable, this`truncateTableID
      ensures partitionTable == old(partitionTable) - gone
      ensures truncateTableID == old(truncateTableID) + gone
    {
      var todo := gone;
      while todo != {}
        invariant todo <= gone
        invariant partitionTable == old(partitionTable) - (gone - todo)
        invariant truncateTableID == old(truncateTableID) + (gone - todo)
      {
        var pid :| pid in todo;
        truncateTableID := truncateTableID + {pid};
        partitionTable := partitionTable - {pid};
        todo := todo - {pid};
      }
    }

    method UpdatePartition(t: TableInfo) returns (err: Option<Error>)
      modifies this
      ensures Outcome(UpdatePartitions(old(Abs()), t), err, Abs())
    {
      if t.id !in tables || tables[t.id].partitions.None? || t.partitions.None? {
        return Some(TableNotFound);
      }
      var gone := Parts(tables[t.id]) - Parts(t);
      tables := tables[t.id := t];
      AddPartitions(t);
      DropPartitions(gone);
      return None;
    }

    method CreateSchema(db: DBInfo) returns (err: Option<Error>)
      requires Valid()
      modifies Footprint()
      ensures Valid() && fresh(tableInSchema.Repr - old(tableInSchema.Repr))
      ensures Outcome(CreateSchemaIn(old(Abs()), db), err, Abs())
    {
      if db.id in schemas {
        return Some(SchemaExists);
      }
      schemas := schemas[db.id := db];
      schemaNameToID := schemaNameToID[db.name := db.id];
      var empty := new ID[0];
      tableInSchema.Put(db.id, Slice(empty, 0), []);
      return None;
    }

    method ReplaceSchema(db: DBInfo) returns (err: Option<Error>)
      modifies this
      ensures Outcome(ReplaceSchemaIn(old(Abs()), db), err, Abs())
    {
      if db.id !in schemas {
        return Some(SchemaNotFound);
      }
      schemas := schemas[db.id := db];
      schemaNameToID := schemaNameToID[db.name := db.id];
      return None;
    }

    /** Takes the listed tables away; `ok` is false at the first that is not there. */
    method DropListed(s: Slice, ghost list: seq<ID>) returns (ok: bool)
      requires Valid() && Holds(s, list)
      modifies this`tables, this`partitionTable, this`tableNameToID
      ensures ok <==> AllKnown(old(tables), list) && NoDuplicates(list)
      ensures ok ==> && tables == old(tables) - Elements(list)
                     && partitionTable == old(partitionTable) - PartsOf(old(tables), list)
                     && tableNameToID == old(tableNameToID) - NamesOf(old(tables), list)
    {
      var i := 0;
      while i < s.len
        invariant 0 <= i <= |list| && Holds(s, list)
        invariant AllKnown(old(tables), list[..i]) && NoDuplicates(list[..i])
        invariant tables == old(tables) - Elements(list[..i])
        invariant partitionTable == old(partitionTable) - PartsOf(old(tables), list[..i])
        invariant tableNameToID == old(tableNameToID) - NamesOf(old(tables), list[..i])
      {
        var id := s.arr[i];
        assert id == list[i] && list[..i + 1] == list[..i] + [id];
        if id !in tables {
          assert id !in old(tables) || id in list[..i];
          return false;
        }
        ListedSnoc(old(tables), list[..i], id);
        var t := tables[id];
        DeletePartitions(t);
        tables := tables - {id};
        tableNameToID := tableNameToID - {t.name};
        i := i + 1;
      }
      assert list[..i] == list;
      return true;
    }

    method DropSchema(id: ID) returns (err: Option<Error>)
      requires Valid()
      modifies Footprint()
      ensures Valid() && fresh(tableInSchema.Repr - old(tableInSchema.Repr))
      ensures Outcome(DropSchemaFrom(old(Abs()), id), err, Abs())
    {
      if id !in schemas {
        return Some(SchemaNotFound);
      }
      if id in tableInSchema.slices {
        var ok := DropListed(tableInSchema.slices[id], tableInSchema.lists[id]);
        if !ok {
          return Some(Crash);
        }
      }
      schemaNameToID := schemaNameToID - {schemas[id].name};
      schemas := schemas - {id};
      tableInSchema.Delete(id);
      return None;
    }

    method DropTables(renamed: seq<Renamed>) returns (err: Option<Error>)
      requires Valid()
      modifies Footprint()
      ensures Valid() && fresh(tableInSchema.Repr - old(tableInSchema.Repr))
      ensures Outcome(DropAll(old(Abs()), renamed), err, Abs())
    {
      var i := 0;
      while i < |renamed|
        invariant 0 <= i <= |renamed| && Valid() && fresh(tableInSchema.Repr - old(tableInSchema.Repr))
        invariant DropAll(Abs(), renamed[i..]) == DropAll(old(Abs()), renamed)
      {
        assert renamed[i..][1..] == renamed[i + 1..];
        err := DropTable(renamed[i].oldID);
        if err.Some? {
          return;
        }
        i := i + 1;
      }
      return None;
    }

    method CreateTables(renamed: seq<Renamed>, ts: nat) returns (err: Option<Error>)
      requires Valid()
      modifies Footprint()
      ensures Valid() && fresh(tableInSchema.Repr - old(tableInSchema.Repr))
      ensures Outcome(CreateAll(old(Abs()), renamed, ts), err, Abs())
    {
      var i := 0;
      while i < |renamed|
        invariant 0 <= i <= |renamed| && Valid() && fresh(tableInSchema.Repr - old(tableInSchema.Repr))
        invariant CreateAll(Abs(), renamed[i..], ts) == CreateAll(old(Abs()), renamed, ts)
      {
        var r := renamed[i];
        assert renamed[i..][1..] == renamed[i + 1..];
        if r.schemaID !in schemas {
          return Some(SchemaNotFound);
        }
        err := CreateTable(Wrap(r.schemaID, schemas[r.schemaID].lowerName, ts, r.table));
        if err.Some? {
          return;
        }
        i := i + 1;
      }
      return None;
    }

    method RenameTables(job: Job) returns (err: Option<Error>)
      requires Valid()
      modifies Footprint()
      ensures Valid() && fresh(tableInSchema.Repr - old(tableInSchema.Repr))
      ensures Outcome(RenameAll(old(Abs()), job), err, Abs())
    {
      err := DropTables(job.renamed);
      if err.None? {
        err := CreateTables(job.renamed, job.finishedTs);
      }
    }

    method DropThenCreate(job: Job) returns (err: Option<Error>)
      requires Valid() && job.schemaID in schemas
      modifies Footprint()
      ensures Valid() && fresh(tableInSchema.Repr - old(tableInSchema.Repr))
      ensures if job.tableInfo.Some?
              then Outcome(Then(DropTableFrom(old(Abs()), job.tableID), WrapFor(old(Abs()), job)), err, Abs())
              else err == Some(if DropTableFrom(old(Abs()), job.tableID).Ok? then Crash
                               else DropTableFrom(old(Abs()), job.tableID).error)
    {
      err := DropTable(job.tableID);
      if err.Some? {
        return;
      }
      if job.tableInfo.None? {
        return Some(Crash);
      }
      err := CreateTable(Wrap(job.schemaID, schemas[job.schemaID].name, job.finishedTs, job.tableInfo.value));
    }

    /** A job on tables; its schema is known. */
    method HandleTableDDL(job: Job) returns (err: Option<Error>)
      requires Valid() && job.schemaID in schemas && !OnSchema(job.kind) && !job.kind.ModifySchema?
               && !job.kind.RenameTables?
      modifies Footprint()
      ensures Valid() && fresh(tableInSchema.Repr - old(tableInSchema.Repr))
      ensures Outcome(Change(old(Abs()), job), err, Abs())
    {
      if job.kind.DropTable? {
        err := DropTable(job.tableID);
      } else if job.kind.RenameTable? {
        err := DropThenCreate(job);
      } else if job.kind.TruncateTable? {
        err := DropThenCreate(job);
        if err.None? {
          truncateTableID := truncateTableID + {job.tableID};
        }
      } else if job.tableInfo.None? {
        err := if job.kind.AlterTable? then None else Some(Crash);
      } else {
        var t := Wrap(job.schemaID, schemas[job.schemaID].name, job.finishedTs, job.tableInfo.value);
        if job.kind.CreateTable? {
          err := CreateTable(t);
        } else if job.kind.ChangePartitions? {
          err := UpdatePartition(t);
        } else {
          err := ReplaceTable(t);
        }
      }
    }

    method HandleDDLJob(job: Job) returns (err: Option<Error>)
      requires Valid()
      modifies Footprint()
      ensures Valid() && fresh(tableInSchema.Repr - old(tableInSchema.Repr))
      ensures Outcome(HandleDDL(old(Abs()), job), err, Abs())
    {
      if job.kind.RenameTables? {
        err := RenameTables(job);
        return;
      }
      if !OnSchema(job.kind) && job.schemaID !in schemas {
        return Some(SchemaNotFound);
      }
      if OnSchema(job.kind) || job.kind.ModifySchema? {
        err := HandleSchemaDDL(job);
      } else {
        err := HandleTableDDL(job);
      }
      if err.None? && !(job.kind.AlterTable? && job.tableInfo.None?) {
        currentTs := job.finishedTs;
      }
    }

    method HandleSchemaDDL(job: Job) returns (err: Option<Error>)
      requires Valid() && (OnSchema(job.kind) || (job.kind.ModifySchema? && job.schemaID in schemas))
      modifies Footprint()
      ensures Valid() && fresh(tableInSchema.Repr - old(tableInSchema.Repr))
      ensures Outcome(Change(old(Abs()), job), err, Abs())
    {
      if job.dbInfo.None? {
        return Some(Crash);
      }
      if job.kind.CreateSchema? {
        err := CreateSchema(job.dbInfo.value);
      } else if job.kind.DropSchema? {
        err := DropSchema(job.schemaID);
      } else {
        err := ReplaceSchema(job.dbInfo.value);
      }
    }
  }

  lemma {:induction false} ListedSnoc(tables: map<ID, TableInfo>, list: seq<ID>, id: ID)
    requires AllKnown(tables, list) && id in tables
    ensures AllKnown(tables, list + [id])
    ensures NamesOf(tables, list + [id]) == NamesOf(tables, list) + {tables[id].name}
    ensures PartsOf(tables, list + [id]) == PartsOf(tables, list) + Parts(tables[id])
    ensures Elements(list + [id]) == Elements(list) + {id}
    decreases |list|
  {
    if list == [] {
      assert [] + [id] == [id];
    } else {
      assert (list + [id])[1..] == list[1..] + [id];
      ListedSnoc(tables, list[1..], id);
    }
  }
}
