/** A RENAME TABLES job that goes wrong in both ways: in the schema `Foo`, table `a` becomes `b`. */
module SchemaRename {
  import opened SchemaSpec
  import opened SchemaConsistency
  import opened SchemaHistory

  const FOO: Snap :=
    Snap(map[TableName("Foo", "a") := 10], map["Foo" := 1], map[1 := DBInfo(1, "Foo", "foo")],
         map[10 := TableInfo(10, 1, TableName("Foo", "a"), None, 0, 5)], map[], map[1 := [10]], {}, 5)

  const A_TO_B: Job := Job(RenameTables, 1, 10, 7, None, None, [Renamed(10, 1, RawTable(10, "b", None, 0))])

  const DROPPED: Snap := FOO.(tableNameToID := map[], tables := map[], tableInSchema := map[1 := []])

  const RENAMED: Snap :=
    FOO.(tableNameToID := map[TableName("foo", "b") := 10],
         tables := map[10 := TableInfo(10, 1, TableName("foo", "b"), None, 0, 7)])

  lemma FooIsConsistent()
    ensures Consistent(FOO) && VersionsOk(FOO)
  {
    assert ListOk([10], FOO.tables, 1);
  }

  lemma FooIsRenamed()
    ensures HandleDDL(FOO, A_TO_B) == Ok(RENAMED) && RenamesFree(FOO, A_TO_B)
  {
    var r := A_TO_B.renamed[0];
    assert Without([10], 10) == [];
    assert FOO.tables - {10} == map[] && FOO.tableNameToID - {TableName("Foo", "a")} == map[];
    assert FOO.partitionTable - {} == map[] && FOO.tableInSchema[1 := []] == map[1 := []];
    assert DropTableFrom(FOO, 10) == Ok(DROPPED);
    assert A_TO_B.renamed[1..] == [];
    assert DropAll(DROPPED, []) == Ok(DROPPED);
    assert DropAll(FOO, A_TO_B.renamed) == Ok(DROPPED);
    var list: seq<ID> := [];
    assert list + [10] == [10];
    assert DROPPED.tableInSchema[1 := [10]] == map[1 := [10]];
    assert CreateTableIn(DROPPED, RenamedTo(DROPPED, r, 7)) == Ok(RENAMED);
    assert CreateAll(RENAMED, [], 7) == Ok(RENAMED);
    assert CreateAll(DROPPED, A_TO_B.renamed, 7) == Ok(RENAMED);
  }

  /** It succeeds and leaves an inconsistent snapshot, which is found before the job has finished. */
  lemma RenamingFooGoesWrong()
    ensures Consistent(FOO) && Accepted(FOO, A_TO_B, RENAMED) && !Consistent(RENAMED)
    ensures LatestOf([FOO, RENAMED], 2, 6) == Some(RENAMED) && ReplayUpTo(FOO, [A_TO_B], 1, 6) == FOO != RENAMED
  {
    FooIsConsistent();
    FooIsRenamed();
    RenameKeepsExactly(FOO, A_TO_B);
    assert !LowerCase(FOO, A_TO_B.renamed[0]) by {
      assert "foo"[0] != "Foo"[0];
    }
    assert ReplayUpTo(FOO, [A_TO_B], 0, 6) == FOO;
  }
}
