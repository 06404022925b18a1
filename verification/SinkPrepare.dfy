/** The loops that write out DELETE and UPDATE statements. */
module SinkPrepare {
  import opened SinkTypes
  import opened SinkStatements
  import Reading = SinkReading

  lemma Regroup<T>(a: seq<T>, b: seq<T>, c: seq<T>)
    ensures a + b + c == a + (b + c)
  {
  }

  lemma {:induction false} AllColumnsSnoc(cols: Columns, c: Column)
    requires forall i :: 0 <= i < |cols| ==> cols[i].Some?
    ensures AllColumns(cols + [Some(c)]) == AllColumns(cols) + [c]
  {
    var more := cols + [Some(c)];
    if cols == [] {
      assert more[1..] == [];
    } else {
      AllColumnsSnoc(cols[1..], c);
      assert more[1..] == cols[1..] + [Some(c)];
    }
  }

  ghost predicate KeysTo(cols: Columns, i: nat, names: seq<Column>) {
    i <= |cols| && names + HandleColumns(cols[i..]) == HandleColumns(cols)
  }

  lemma KeysOneMore(cols: Columns, i: nat, names: seq<Column>)
    requires KeysTo(cols, i, names) && i < |cols|
    ensures KeysTo(cols, i + 1, if cols[i].Some? && cols[i].value.handleKey then names + [cols[i].value] else names)
  {
    assert cols[i..][1..] == cols[i + 1..];
    if cols[i].Some? && cols[i].value.handleKey {
      Regroup(names, [cols[i].value], HandleColumns(cols[i + 1..]));
    }
  }

  method KeyColumns(cols: Columns) returns (names: seq<Column>)
    ensures names == HandleColumns(cols)
  {
    names := [];
    var i := 0;
    assert cols[0..] == cols;
    while i < |cols|
      invariant 0 <= i <= |cols| && KeysTo(cols, i, names)
    {
      KeysOneMore(cols, i, names);
      if cols[i].Some? && cols[i].value.handleKey {
        names := names + [cols[i].value];
      }
      i := i + 1;
    }
  }

  /** The columns for a WHERE clause: those of the key, or else all of them if that is forced.
      `ok` is false where the source dereferences a missing column. */
  method WhereSlice(cols: Columns, forceReplicate: bool) returns (ok: bool, names: seq<Column>)
    ensures ok <==> WhereOk(cols, forceReplicate)
    ensures ok ==> names == WhereColumns(cols, forceReplicate)
  {
    names := KeyColumns(cols);
    if names == [] && forceReplicate {
      ok, names := EveryColumn(cols);
    } else {
      ok := true;
    }
  }

  method EveryColumn(cols: Columns) returns (ok: bool, names: seq<Column>)
    ensures ok <==> forall i :: 0 <= i < |cols| ==> cols[i].Some?
    ensures ok ==> names == AllColumns(cols)
  {
    names := [];
    var i := 0;
    while i < |cols|
      invariant 0 <= i <= |cols| && (forall k :: 0 <= k < i ==> cols[k].Some?) && names == AllColumns(cols[..i])
    {
      if cols[i].None? {
        return false, [];
      }
      AllColumnsSnoc(cols[..i], cols[i].value);
      assert cols[..i + 1] == cols[..i] + [cols[i]];
      names := names + [cols[i].value];
      i := i + 1;
    }
    assert cols[..i] == cols;
    return true, names;
  }

  function And(more: bool): seq<Token> {
    if more then [Lit(" AND ")] else []
  }

  /** What is written for the first columns, and what is still to be written. */
  ghost predicate WhereTo(names: seq<Column>, equals: string, i: nat, sql: seq<Token>) {
    i <= |names| && sql + And(0 < i < |names|) + WhereTokens(names[i..], equals) == WhereTokens(names, equals)
  }

  ghost predicate ArgsTo(names: seq<Column>, i: nat, args: Args) {
    i <= |names| && args + WhereArgs(names[i..]) == WhereArgs(names)
  }

  lemma WhereOneMore(names: seq<Column>, equals: string, i: nat, sql: seq<Token>)
    requires WhereTo(names, equals, i, sql) && i < |names|
    ensures WhereTo(names, equals, i + 1, sql + And(i > 0) + Condition(names[i], equals))
  {
    var item, rest := Condition(names[i], equals), WhereTokens(names[i + 1..], equals);
    assert names[i..][1..] == names[i + 1..];
    var sep := And(i + 1 < |names|);
    assert WhereTokens(names[i..], equals) == item + sep + rest;
    Regroup(item, sep, rest);
    Regroup(sql + And(i > 0), item, sep + rest);
    Regroup(sql + And(i > 0) + item, sep, rest);
  }

  lemma ArgsOneMore(names: seq<Column>, i: nat, args: Args)
    requires ArgsTo(names, i, args) && i < |names|
    ensures ArgsTo(names, i + 1, args + (if names[i].value.None? then [] else [names[i].value]))
  {
    var item := if names[i].value.None? then [] else [names[i].value];
    assert names[i..][1..] == names[i + 1..];
    Regroup(args, item, WhereArgs(names[i + 1..]));
  }

  method WhereClause(names: seq<Column>, equals: string) returns (sql: seq<Token>, args: Args)
    ensures sql == WhereTokens(names, equals) && args == WhereArgs(names)
  {
    sql, args := [], [];
    var i := 0;
    assert names[0..] == names;
    while i < |names|
      invariant 0 <= i <= |names| && WhereTo(names, equals, i, sql) && ArgsTo(names, i, args)
    {
      WhereOneMore(names, equals, i, sql);
      ArgsOneMore(names, i, args);
      if i > 0 {
        sql := sql + [Lit(" AND ")];
      } else {
        assert sql + And(false) == sql;
      }
      if names[i].value.None? {
        sql := sql + [Lit(Quoted(names[i].name) + " IS NULL")];
        assert args + [] == args;
      } else {
        sql := sql + [Lit(Quoted(names[i].name) + equals), Hole];
        args := args + [names[i].value];
      }
      i := i + 1;
    }
  }

  method SetClause(names: seq<Column>) returns (sql: seq<Token>)
    ensures sql == SetTokens(names)
  {
    sql := [];
    var i := 0;
    while i < |names|
      invariant 0 <= i <= |names| && sql + SetTokens(names[i..]) == SetTokens(names)
    {
      assert names[i..][1..] == names[i + 1..];
      sql := sql + [Lit(Quoted(names[i].name) + "="), Hole];
      if i != |names| - 1 {
        sql := sql + [Lit(",")];
      }
      i := i + 1;
    }
  }

  lemma {:induction false} ValuesSnoc(names: seq<Column>, c: Column)
    ensures Values(names + [c]) == Values(names) + [c.value]
  {
    if names == [] {
      assert [c][1..] == [];
    } else {
      ValuesSnoc(names[1..], c);
      assert (names + [c])[1..] == names[1..] + [c];
    }
  }

  ghost predicate WrittenTo(cols: Columns, i: nat, names: seq<Column>) {
    i <= |cols| && names + Written(cols[i..]) == Written(cols)
  }

  lemma WrittenOneMore(cols: Columns, i: nat, names: seq<Column>)
    requires WrittenTo(cols, i, names) && i < |cols|
    ensures WrittenTo(cols, i + 1,
                      if cols[i].Some? && !cols[i].value.generated then names + [cols[i].value] else names)
  {
    assert cols[i..][1..] == cols[i + 1..];
    if cols[i].Some? && !cols[i].value.generated {
      Regroup(names, [cols[i].value], Written(cols[i + 1..]));
    }
  }

  method WrittenColumns(cols: Columns) returns (names: seq<Column>, args: Args)
    ensures names == Written(cols) && args == Values(Written(cols))
  {
    names, args := [], [];
    var i := 0;
    assert cols[0..] == cols;
    while i < |cols|
      invariant 0 <= i <= |cols| && WrittenTo(cols, i, names) && args == Values(names)
    {
      WrittenOneMore(cols, i, names);
      if cols[i].Some? && !cols[i].value.generated {
        ValuesSnoc(names, cols[i].value);
        names, args := names + [cols[i].value], args + [cols[i].value.value];
      }
      i := i + 1;
    }
  }

  /** No statement if there is nothing to go by. */
  method PrepareDelete(r: Row, forceReplicate: bool) returns (ok: bool, stmt: Option<Stmt>)
    ensures ok <==> WhereOk(r.preColumns, forceReplicate)
    ensures ok ==> stmt == DeleteStmt(r, forceReplicate) && (stmt.Some? ==> Matched(stmt.value))
    ensures ok && stmt.Some? ==> Reading.SaysDelete(stmt.value, r, forceReplicate)
    ensures ok ==> (stmt.Some? <==> Reading.Conditions(r.preColumns, forceReplicate) != [])
  {
    stmt := None;
    if WhereOk(r.preColumns, forceReplicate) {
      Reading.DeleteSays(r, forceReplicate);
    }
    var names;
    ok, names := WhereSlice(r.preColumns, forceReplicate);
    if !ok || names == [] {
      return;
    }
    var where_, args := WhereClause(names, " = ");
    stmt := Some(Stmt([Lit("DELETE FROM " + r.quotedTable + " WHERE ")] + where_ + [Lit(" LIMIT 1;")], args));
    DeleteCount(r, forceReplicate);
  }

  /** No statement if there is nothing to set or nothing to go by; the columns for the WHERE clause
      are only looked at if there is something to set. */
  method PrepareUpdate(r: Row, forceReplicate: bool) returns (ok: bool, stmt: Option<Stmt>)
    ensures ok <==> Written(r.columns) == [] || WhereOk(r.preColumns, forceReplicate)
    ensures ok ==> stmt == UpdateStmt(r, forceReplicate) && (stmt.Some? ==> Matched(stmt.value))
    ensures ok && stmt.Some? ==> Reading.SaysUpdate(stmt.value, r, forceReplicate)
    ensures ok ==> (stmt.Some? <==>
              Reading.NewItems(r.columns) != [] && Reading.Conditions(r.preColumns, forceReplicate) != [])
  {
    ok, stmt := true, None;
    if Written(r.columns) == [] || WhereOk(r.preColumns, forceReplicate) {
      Reading.UpdateSays(r, forceReplicate);
    }
    var names, args := WrittenColumns(r.columns);
    if names == [] {
      return;
    }
    var set_ := SetClause(names);
    var keys;
    ok, keys := WhereSlice(r.preColumns, forceReplicate);
    if !ok || keys == [] {
      return;
    }
    var where_, wargs := WhereClause(keys, "=");
    var sql := [Lit("UPDATE " + r.quotedTable + " SET ")] + set_ + [Lit(" WHERE ")] + where_ + [Lit(" LIMIT 1;")];
    stmt := Some(Stmt(sql, args + wargs));
    UpdateCount(r, forceReplicate);
  }
}
