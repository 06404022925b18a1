/** What a statement says, read back from its text, its placeholders and its arguments as a MySQL server
    would read it, with no regard to how it was built. */
module SinkReading {
  import opened SinkTypes
  import opened SinkStatements

  // ----- Names -----

  /** The rest of a quoted name, up to the closing quote, and what follows. A doubled quote is one in the name. */
  function ReadRest(text: string): (r: Option<(string, string)>)
    ensures r.Some? ==> |r.value.1| < |text|
  {
    if text == "" then None
    else if text[0] != '`' then
      match ReadRest(text[1..])
      case Some((name, rest)) => Some(([text[0]] + name, rest))
      case None => None
    else if |text| > 1 && text[1] == '`' then
      match ReadRest(text[2..])
      case Some((name, rest)) => Some(("`" + name, rest))
      case None => None
    else Some(("", text[1..]))
  }

  function ReadName(text: string): (r: Option<(string, string)>)
    ensures r.Some? ==> |r.value.1| < |text|
  {
    if text == "" || text[0] != '`' then None else ReadRest(text[1..])
  }

  predicate NoQuote(text: string) {
    text == "" || text[0] != '`'
  }

  lemma {:induction false} ReadsEscaped(name: string, rest: string)
    requires NoQuote(rest)
    ensures ReadRest(Escaped(name) + "`" + rest) == Some((name, rest))
  {
    var text := Escaped(name) + "`" + rest;
    if name == "" {
      assert text == "`" + rest && text[1..] == rest;
    } else {
      ReadsEscaped(name[1..], rest);
      var more := Escaped(name[1..]) + "`" + rest;
      if name[0] == '`' {
        assert text == "``" + more && text[2..] == more;
        assert name == "`" + name[1..];
      } else {
        assert text == [name[0]] + more && text[1..] == more;
        assert name == [name[0]] + name[1..];
      }
    }
  }

  /** A quoted name can be read back, whatever is in it. */
  lemma ReadsQuoted(name: string, rest: string)
    requires NoQuote(rest)
    ensures ReadName(Quoted(name) + rest) == Some((name, rest))
  {
    var text := Quoted(name) + rest;
    assert text == "`" + (Escaped(name) + "`" + rest);
    assert text[1..] == Escaped(name) + "`" + rest;
    ReadsEscaped(name, rest);
  }

  // ----- Placeholders and arguments -----

  /** A column with the argument of the placeholder behind it, a column that is to be null, a
      placeholder without a column, or other text. */
  datatype Item =
    | Bound(name: string, value: Option<Value>)
    | IsNull(name: string)
    | Loose(value: Option<Value>)
    | Text(text: string)

  predicate IsEquals(text: string) {
    text == "=" || text == " = "
  }

  /** The n-th placeholder takes the n-th argument. */
  function Items(sql: seq<Token>, args: Args): seq<Item>
    decreases |sql|
  {
    if sql == [] then []
    else match sql[0]
      case Hole => if args == [] then [] else [Loose(args[0])] + Items(sql[1..], args[1..])
      case Lit(text) =>
        match ReadName(text)
        case None => [Text(text)] + Items(sql[1..], args)
        case Some((name, rest)) =>
          if IsEquals(rest) && |sql| > 1 && sql[1].Hole? && args != [] then
            [Bound(name, args[0])] + Items(sql[2..], args[1..])
          else if rest == " IS NULL" then [IsNull(name)] + Items(sql[1..], args)
          else [Text(text)] + Items(sql[1..], args)
  }

  lemma ItemsText(text: string, sql: seq<Token>, args: Args)
    requires NoQuote(text)
    ensures Items([Lit(text)] + sql, args) == [Text(text)] + Items(sql, args)
  {
    assert ([Lit(text)] + sql)[1..] == sql;
  }

  lemma ItemsBound(name: string, equals: string, v: Option<Value>, sql: seq<Token>, args: Args)
    requires IsEquals(equals)
    ensures Items([Lit(Quoted(name) + equals), Hole] + sql, [v] + args) == [Bound(name, v)] + Items(sql, args)
  {
    ReadsQuoted(name, equals);
    var all := [Lit(Quoted(name) + equals), Hole] + sql;
    assert all[2..] == sql && ([v] + args)[1..] == args;
  }

  lemma ItemsNull(name: string, sql: seq<Token>, args: Args)
    ensures Items([Lit(Quoted(name) + " IS NULL")] + sql, args) == [IsNull(name)] + Items(sql, args)
  {
    ReadsQuoted(name, " IS NULL");
    assert ([Lit(Quoted(name) + " IS NULL")] + sql)[1..] == sql;
    assert !IsEquals(" IS NULL") by { assert |" IS NULL"| == 8; }
  }

  // ----- Lists -----

  function Joined(items: seq<Item>, sep: string): seq<Item> {
    if |items| <= 1 then items else [items[0], Text(sep)] + Joined(items[1..], sep)
  }

  /** The members of a list, if it is one with these separators. */
  function Unjoin(items: seq<Item>, sep: string): Option<seq<Item>> {
    if items == [] || items[0].Text? || items[0].Loose? then None
    else if |items| == 1 then Some(items)
    else if items[1] != Text(sep) then None
    else match Unjoin(items[2..], sep)
      case Some(rest) => Some([items[0]] + rest)
      case None => None
  }

  predicate Columnar(items: seq<Item>) {
    forall i :: 0 <= i < |items| ==> items[i].Bound? || items[i].IsNull?
  }

  lemma {:induction false} JoinedBack(items: seq<Item>, sep: string)
    requires items != [] && Columnar(items)
    ensures Unjoin(Joined(items, sep), sep) == Some(items)
  {
    if |items| > 1 {
      JoinedBack(items[1..], sep);
      assert ([items[0], Text(sep)] + Joined(items[1..], sep))[2..] == Joined(items[1..], sep);
      assert [items[0]] + items[1..] == items;
    }
  }

  // ----- Statements on one row -----

  datatype Reading =
    | Update(table: string, sets: seq<Item>, wheres: seq<Item>)
    | Delete(table: string, wheres: seq<Item>)
    | Unknown

  /** The first place where the text stands. */
  function Place(items: seq<Item>, text: string): (k: nat)
    ensures k <= |items|
  {
    if items == [] || items[0] == Text(text) then 0 else 1 + Place(items[1..], text)
  }

  predicate Between(text: string, before: string, after: string) {
    |before| + |after| <= |text| && before <= text && text[|text| - |after|..] == after
  }

  function Middle(text: string, before: string, after: string): string
    requires Between(text, before, after)
  {
    text[|before|..|text| - |after|]
  }

  /** UPDATE table SET name=?,... WHERE condition AND ... LIMIT 1; or DELETE FROM table WHERE ... LIMIT 1; */
  function ReadItems(items: seq<Item>): Reading {
    var n := |items|;
    var w := Place(items, " WHERE ");
    if n < 3 || !items[0].Text? || items[n - 1] != Text(" LIMIT 1;") then Unknown
    else if Between(items[0].text, "UPDATE ", " SET ") && 0 < w < n - 1 then
      var sets, wheres := Unjoin(items[1..w], ","), Unjoin(items[w + 1..n - 1], " AND ");
      if sets.Some? && wheres.Some? then Update(Middle(items[0].text, "UPDATE ", " SET "), sets.value, wheres.value)
      else Unknown
    else if Between(items[0].text, "DELETE FROM ", " WHERE ") then
      var wheres := Unjoin(items[1..n - 1], " AND ");
      if wheres.Some? then Delete(Middle(items[0].text, "DELETE FROM ", " WHERE "), wheres.value) else Unknown
    else Unknown
  }

  function Read(s: Stmt): Reading {
    ReadItems(Items(s.sql, s.args))
  }

  // ----- What the statements should say -----

  /** The columns to write, with their new values. */
  function NewItems(cols: Columns): seq<Item> {
    if cols == [] then []
    else (if cols[0].Some? && !cols[0].value.generated then [Bound(cols[0].value.name, cols[0].value.value)] else [])
         + NewItems(cols[1..])
  }

  predicate HasHandle(cols: Columns) {
    exists i :: 0 <= i < |cols| && cols[i].Some? && cols[i].value.handleKey
  }

  function OldItem(c: Column): Item {
    if c.value.None? then IsNull(c.name) else Bound(c.name, c.value)
  }

  /** The columns to go by, with their old values. */
  function OldItems(cols: Columns, all: bool): seq<Item> {
    if cols == [] then []
    else (if cols[0].Some? && (all || cols[0].value.handleKey) then [OldItem(cols[0].value)] else [])
         + OldItems(cols[1..], all)
  }

  /** Rows are identified by their handle, or else, if so told, by everything. */
  function Conditions(cols: Columns, forceReplicate: bool): seq<Item> {
    OldItems(cols, forceReplicate && !HasHandle(cols))
  }

  predicate SaysUpdate(s: Stmt, r: Row, forceReplicate: bool) {
    Read(s) == Update(r.quotedTable, NewItems(r.columns), Conditions(r.preColumns, forceReplicate))
  }

  predicate SaysDelete(s: Stmt, r: Row, forceReplicate: bool) {
    Read(s) == Delete(r.quotedTable, Conditions(r.preColumns, forceReplicate))
  }

  // ----- The lists in the statements -----

  lemma Regroup<T>(a: seq<T>, b: seq<T>, c: seq<T>)
    ensures a + b + c == a + (b + c)
  {
  }

  lemma Regroup5<T>(a: seq<T>, b: seq<T>, c: seq<T>, d: seq<T>, e: seq<T>)
    ensures a + b + c + d + e == a + (b + (c + (d + e)))
  {
    Regroup(a + b + c, d, e);
    Regroup(a + b, c, d + e);
    Regroup(a, b, c + (d + e));
  }

  function SetItems(cols: seq<Column>): seq<Item> {
    if cols == [] then [] else [Bound(cols[0].name, cols[0].value)] + SetItems(cols[1..])
  }

  function WhereItems(cols: seq<Column>): seq<Item> {
    if cols == [] then [] else [OldItem(cols[0])] + WhereItems(cols[1..])
  }

  lemma SetThen(c: Column, sql: seq<Token>, args: Args)
    ensures Items([Lit(Quoted(c.name) + "="), Hole] + [Lit(",")] + sql, [c.value] + args)
            == [Bound(c.name, c.value), Text(",")] + Items(sql, args)
  {
    ItemsBound(c.name, "=", c.value, [Lit(",")] + sql, args);
    ItemsText(",", sql, args);
    assert [Lit(Quoted(c.name) + "="), Hole] + [Lit(",")] + sql
           == [Lit(Quoted(c.name) + "="), Hole] + ([Lit(",")] + sql);
  }

  lemma OneSet(c: Column)
    ensures SetTokens([c]) == [Lit(Quoted(c.name) + "="), Hole] && Values([c]) == [c.value]
    ensures SetItems([c]) == [Bound(c.name, c.value)]
  {
    assert [c][1..] == [];
  }

  lemma MoreSets(c: Column, rest: seq<Column>)
    requires rest != []
    ensures SetTokens([c] + rest) == [Lit(Quoted(c.name) + "="), Hole] + [Lit(",")] + SetTokens(rest)
    ensures Values([c] + rest) == [c.value] + Values(rest)
    ensures SetItems([c] + rest) == [Bound(c.name, c.value)] + SetItems(rest)
  {
    assert ([c] + rest)[1..] == rest;
  }

  lemma {:induction false} SetReads(cols: seq<Column>, sql: seq<Token>, args: Args)
    requires cols != []
    ensures SetItems(cols) != []
    ensures Items(SetTokens(cols) + sql, Values(cols) + args) == Joined(SetItems(cols), ",") + Items(sql, args)
  {
    var c, rest := cols[0], cols[1..];
    if rest == [] {
      assert cols == [c];
      OneSet(c);
      ItemsBound(c.name, "=", c.value, sql, args);
    } else {
      assert cols == [c] + rest;
      MoreSets(c, rest);
      SetReads(rest, sql, args);
      SetThen(c, SetTokens(rest) + sql, Values(rest) + args);
      Regroup([Lit(Quoted(c.name) + "="), Hole] + [Lit(",")], SetTokens(rest), sql);
      Regroup([c.value], Values(rest), args);
      assert SetItems(cols)[1..] == SetItems(rest);
      Regroup([Bound(c.name, c.value), Text(",")], Joined(SetItems(rest), ","), Items(sql, args));
    }
  }

  function OneArg(c: Column): Args {
    if c.value.None? then [] else [c.value]
  }

  lemma ConditionReads(c: Column, equals: string, sql: seq<Token>, args: Args)
    requires IsEquals(equals)
    ensures Items(Condition(c, equals) + sql, OneArg(c) + args) == [OldItem(c)] + Items(sql, args)
  {
    if c.value.None? {
      ItemsNull(c.name, sql, args);
      assert [] + args == args;
    } else {
      ItemsBound(c.name, equals, c.value, sql, args);
    }
  }

  lemma ConditionThen(c: Column, equals: string, sql: seq<Token>, args: Args)
    requires IsEquals(equals)
    ensures Items(Condition(c, equals) + [Lit(" AND ")] + sql, OneArg(c) + args)
            == [OldItem(c), Text(" AND ")] + Items(sql, args)
  {
    ConditionReads(c, equals, [Lit(" AND ")] + sql, args);
    ItemsText(" AND ", sql, args);
    assert Condition(c, equals) + [Lit(" AND ")] + sql == Condition(c, equals) + ([Lit(" AND ")] + sql);
  }

  lemma OneCondition(c: Column, equals: string)
    ensures WhereTokens([c], equals) == Condition(c, equals) && WhereArgs([c]) == OneArg(c)
    ensures WhereItems([c]) == [OldItem(c)]
  {
    assert [c][1..] == [];
  }

  lemma MoreConditions(c: Column, rest: seq<Column>, equals: string)
    requires rest != []
    ensures WhereTokens([c] + rest, equals) == Condition(c, equals) + [Lit(" AND ")] + WhereTokens(rest, equals)
    ensures WhereArgs([c] + rest) == OneArg(c) + WhereArgs(rest)
    ensures WhereItems([c] + rest) == [OldItem(c)] + WhereItems(rest)
  {
    assert ([c] + rest)[1..] == rest;
  }

  lemma {:induction false} WhereReads(cols: seq<Column>, equals: string, sql: seq<Token>, args: Args)
    requires IsEquals(equals) && cols != []
    ensures WhereItems(cols) != []
    ensures Items(WhereTokens(cols, equals) + sql, WhereArgs(cols) + args)
            == Joined(WhereItems(cols), " AND ") + Items(sql, args)
  {
    var c, rest := cols[0], cols[1..];
    if rest == [] {
      assert cols == [c];
      OneCondition(c, equals);
      ConditionReads(c, equals, sql, args);
    } else {
      assert cols == [c] + rest;
      MoreConditions(c, rest, equals);
      WhereReads(rest, equals, sql, args);
      ConditionThen(c, equals, WhereTokens(rest, equals) + sql, WhereArgs(rest) + args);
      Regroup(Condition(c, equals) + [Lit(" AND ")], WhereTokens(rest, equals), sql);
      Regroup(OneArg(c), WhereArgs(rest), args);
      assert WhereItems(cols)[1..] == WhereItems(rest);
      Regroup([OldItem(c), Text(" AND ")], Joined(WhereItems(rest), " AND "), Items(sql, args));
    }
  }

  lemma TailReads(text: string)
    requires NoQuote(text)
    ensures Items([Lit(text)], []) == [Text(text)]
  {
    ItemsText(text, [], []);
    assert [Lit(text)] + [] == [Lit(text)];
    assert [Text(text)] + [] == [Text(text)];
  }

  lemma WhereTail(keys: seq<Column>, equals: string)
    requires IsEquals(equals) && keys != []
    ensures Items(WhereTokens(keys, equals) + [Lit(" LIMIT 1;")], WhereArgs(keys))
            == Joined(WhereItems(keys), " AND ") + [Text(" LIMIT 1;")]
  {
    TailReads(" LIMIT 1;");
    WhereReads(keys, equals, [Lit(" LIMIT 1;")], []);
    assert WhereArgs(keys) + [] == WhereArgs(keys);
  }

  lemma UpdateItems(head: string, cols: seq<Column>, keys: seq<Column>)
    requires NoQuote(head) && cols != [] && keys != []
    ensures Items([Lit(head)] + SetTokens(cols) + [Lit(" WHERE ")] + WhereTokens(keys, "=") + [Lit(" LIMIT 1;")],
                  Values(cols) + WhereArgs(keys))
            == [Text(head)] + Joined(SetItems(cols), ",") + [Text(" WHERE ")]
               + Joined(WhereItems(keys), " AND ") + [Text(" LIMIT 1;")]
  {
    var tail := WhereTokens(keys, "=") + [Lit(" LIMIT 1;")];
    var mid := [Lit(" WHERE ")] + tail;
    WhereTail(keys, "=");
    ItemsText(" WHERE ", tail, WhereArgs(keys));
    SetReads(cols, mid, WhereArgs(keys));
    ItemsText(head, SetTokens(cols) + mid, Values(cols) + WhereArgs(keys));
    Regroup5([Lit(head)], SetTokens(cols), [Lit(" WHERE ")], WhereTokens(keys, "="), [Lit(" LIMIT 1;")]);
    Regroup5([Text(head)], Joined(SetItems(cols), ","), [Text(" WHERE ")], Joined(WhereItems(keys), " AND "),
             [Text(" LIMIT 1;")]);
  }

  lemma DeleteItems(head: string, keys: seq<Column>)
    requires NoQuote(head) && keys != []
    ensures Items([Lit(head)] + WhereTokens(keys, " = ") + [Lit(" LIMIT 1;")], WhereArgs(keys))
            == [Text(head)] + Joined(WhereItems(keys), " AND ") + [Text(" LIMIT 1;")]
  {
    var tail := WhereTokens(keys, " = ") + [Lit(" LIMIT 1;")];
    WhereTail(keys, " = ");
    ItemsText(head, tail, WhereArgs(keys));
    Regroup([Lit(head)], WhereTokens(keys, " = "), [Lit(" LIMIT 1;")]);
    Regroup([Text(head)], Joined(WhereItems(keys), " AND "), [Text(" LIMIT 1;")]);
  }

  // ----- Reading the statements -----

  lemma {:induction false} PlaceAfter(items: seq<Item>, rest: seq<Item>, text: string)
    requires forall i :: 0 <= i < |items| ==> items[i] != Text(text)
    ensures Place(items + [Text(text)] + rest, text) == |items|
  {
    var all := items + [Text(text)] + rest;
    if items != [] {
      assert all[1..] == items[1..] + [Text(text)] + rest;
      PlaceAfter(items[1..], rest, text);
    }
  }

  lemma {:induction false} JoinedTexts(items: seq<Item>, sep: string, text: string)
    requires Columnar(items) && sep != text
    ensures forall i :: 0 <= i < |Joined(items, sep)| ==> Joined(items, sep)[i] != Text(text)
  {
    if |items| > 1 {
      JoinedTexts(items[1..], sep, text);
    }
  }

  lemma {:induction false} SetColumnar(cols: seq<Column>)
    ensures Columnar(SetItems(cols)) && (cols != [] ==> SetItems(cols) != [])
  {
    if cols != [] {
      SetColumnar(cols[1..]);
    }
  }

  lemma {:induction false} WhereColumnar(cols: seq<Column>)
    ensures Columnar(WhereItems(cols)) && (cols != [] ==> WhereItems(cols) != [])
  {
    if cols != [] {
      WhereColumnar(cols[1..]);
    }
  }

  lemma HeadReads(before: string, table: string, after: string)
    ensures Between(before + table + after, before, after)
    ensures Middle(before + table + after, before, after) == table
  {
    var text := before + table + after;
    assert text[|text| - |after|..] == after;
    assert text[|before|..|text| - |after|] == table;
  }

  lemma SplitsUpdate(head: string, a: seq<Item>, b: seq<Item>)
    requires head != " WHERE " && forall i :: 0 <= i < |a| ==> a[i] != Text(" WHERE ")
    ensures var items := [Text(head)] + a + [Text(" WHERE ")] + b + [Text(" LIMIT 1;")];
            var n, w := |items|, Place(items, " WHERE ");
            && w == 1 + |a| && n == 3 + |a| + |b| && items[0] == Text(head) && items[n - 1] == Text(" LIMIT 1;")
            && items[1..w] == a && items[w + 1..n - 1] == b
  {
    var tail := [Text(" LIMIT 1;")];
    Regroup([Text(head)] + a + [Text(" WHERE ")], b, tail);
    PlaceAfter([Text(head)] + a, b + tail, " WHERE ");
  }

  lemma ReadsUpdateItems(head: string, table: string, a: seq<Item>, b: seq<Item>, sets: seq<Item>, wheres: seq<Item>)
    requires Between(head, "UPDATE ", " SET ") && Middle(head, "UPDATE ", " SET ") == table && head != " WHERE "
    requires Unjoin(a, ",") == Some(sets) && Unjoin(b, " AND ") == Some(wheres)
    requires forall i :: 0 <= i < |a| ==> a[i] != Text(" WHERE ")
    ensures ReadItems([Text(head)] + a + [Text(" WHERE ")] + b + [Text(" LIMIT 1;")]) == Update(table, sets, wheres)
  {
    SplitsUpdate(head, a, b);
  }

  lemma ReadsUpdate(table: string, sets: seq<Item>, wheres: seq<Item>)
    requires sets != [] && wheres != [] && Columnar(sets) && Columnar(wheres)
    ensures ReadItems([Text("UPDATE " + table + " SET ")] + Joined(sets, ",") + [Text(" WHERE ")]
                      + Joined(wheres, " AND ") + [Text(" LIMIT 1;")])
            == Update(table, sets, wheres)
  {
    var head := "UPDATE " + table + " SET ";
    HeadReads("UPDATE ", table, " SET ");
    assert head[0] == 'U' && " WHERE "[0] == ' ';
    JoinedTexts(sets, ",", " WHERE ");
    JoinedBack(sets, ",");
    JoinedBack(wheres, " AND ");
    ReadsUpdateItems(head, table, Joined(sets, ","), Joined(wheres, " AND "), sets, wheres);
  }

  lemma ReadsDelete(table: string, wheres: seq<Item>)
    requires wheres != [] && Columnar(wheres)
    ensures ReadItems([Text("DELETE FROM " + table + " WHERE ")] + Joined(wheres, " AND ") + [Text(" LIMIT 1;")])
            == Delete(table, wheres)
  {
    var text := "DELETE FROM " + table + " WHERE ";
    var items := [Text(text)] + Joined(wheres, " AND ") + [Text(" LIMIT 1;")];
    HeadReads("DELETE FROM ", table, " WHERE ");
    assert !Between(text, "UPDATE ", " SET ") by { assert text[0] == 'D'; }
    assert items[1..|items| - 1] == Joined(wheres, " AND ");
    JoinedBack(wheres, " AND ");
  }

  // ----- Which columns -----

  lemma {:induction false} NewColumns(cols: Columns)
    ensures SetItems(Written(cols)) == NewItems(cols)
  {
    if cols != [] {
      NewColumns(cols[1..]);
      var rest := Written(cols[1..]);
      if cols[0].Some? && !cols[0].value.generated {
        assert Written(cols)[1..] == rest;
      } else {
        assert Written(cols) == rest;
      }
    }
  }

  lemma {:induction false} HandleItems(cols: Columns)
    ensures WhereItems(HandleColumns(cols)) == OldItems(cols, false)
    ensures HandleColumns(cols) == [] <==> !HasHandle(cols)
  {
    if cols != [] {
      var rest := cols[1..];
      HandleItems(rest);
      assert forall i :: 0 <= i < |rest| ==> rest[i] == cols[i + 1];
      if cols[0].Some? && cols[0].value.handleKey {
        assert HandleColumns(cols)[1..] == HandleColumns(rest);
      } else {
        assert HandleColumns(cols) == HandleColumns(rest);
        assert HasHandle(cols) <==> HasHandle(rest);
      }
    }
  }

  lemma {:induction false} EveryItem(cols: Columns)
    requires forall i :: 0 <= i < |cols| ==> cols[i].Some?
    ensures WhereItems(AllColumns(cols)) == OldItems(cols, true)
  {
    if cols != [] {
      EveryItem(cols[1..]);
      assert AllColumns(cols)[1..] == AllColumns(cols[1..]);
    }
  }

  lemma OldColumns(cols: Columns, forceReplicate: bool)
    requires WhereOk(cols, forceReplicate)
    ensures WhereItems(WhereColumns(cols, forceReplicate)) == Conditions(cols, forceReplicate)
  {
    HandleItems(cols);
    if HandleColumns(cols) == [] && forceReplicate {
      EveryItem(cols);
    }
  }

  /** An UPDATE says: set the columns to their new values where the row has its old ones. There is one
      exactly if there is something to set and something to go by. */
  lemma UpdateSays(r: Row, forceReplicate: bool)
    requires Written(r.columns) == [] || WhereOk(r.preColumns, forceReplicate)
    ensures var s := UpdateStmt(r, forceReplicate);
            && (s.Some? <==> NewItems(r.columns) != [] && Conditions(r.preColumns, forceReplicate) != [])
            && (s.Some? ==> SaysUpdate(s.value, r, forceReplicate))
  {
    NewColumns(r.columns);
    var cols := Written(r.columns);
    if cols != [] {
      SetColumnar(cols);
      var keys := WhereColumns(r.preColumns, forceReplicate);
      OldColumns(r.preColumns, forceReplicate);
      WhereColumnar(keys);
      if keys != [] {
        UpdateItems("UPDATE " + r.quotedTable + " SET ", cols, keys);
        ReadsUpdate(r.quotedTable, SetItems(cols), WhereItems(keys));
      }
    }
  }

  /** A DELETE says: delete where the row has its old values. */
  lemma DeleteSays(r: Row, forceReplicate: bool)
    requires WhereOk(r.preColumns, forceReplicate)
    ensures var s := DeleteStmt(r, forceReplicate);
            && (s.Some? <==> Conditions(r.preColumns, forceReplicate) != [])
            && (s.Some? ==> SaysDelete(s.value, r, forceReplicate))
  {
    var keys := WhereColumns(r.preColumns, forceReplicate);
    OldColumns(r.preColumns, forceReplicate);
    WhereColumnar(keys);
    if keys != [] {
      DeleteItems("DELETE FROM " + r.quotedTable + " WHERE ", keys);
      ReadsDelete(r.quotedTable, WhereItems(keys));
    }
  }

  // ----- Inserts -----

  /** Quoted names with commas between them, and what follows. */
  function ReadNames(text: string): (seq<string>, string)
    decreases |text|
  {
    match ReadName(text)
    case None => ([], text)
    case Some((name, rest)) =>
      if rest != "" && rest[0] == ',' then var (names, after) := ReadNames(rest[1..]); ([name] + names, after)
      else ([name], rest)
  }

  function Names(cols: seq<Column>): seq<string> {
    if cols == [] then [] else [cols[0].name] + Names(cols[1..])
  }

  lemma LastName(name: string, after: string)
    requires NoQuote(after) && (after == "" || after[0] != ',')
    ensures ReadNames(Quoted(name) + after) == ([name], after)
  {
    ReadsQuoted(name, after);
  }

  lemma NextName(name: string, list: string)
    ensures ReadNames(Quoted(name) + ("," + list)) == ([name] + ReadNames(list).0, ReadNames(list).1)
  {
    ReadsQuoted(name, "," + list);
    assert ("," + list)[1..] == list;
  }

  lemma ColumnListSplit(c: Column, rest: seq<Column>)
    ensures Names([c] + rest) == [c.name] + Names(rest)
    ensures ColumnList([c] + rest) == if rest == [] then Quoted(c.name) else Quoted(c.name) + "," + ColumnList(rest)
  {
    assert ([c] + rest)[1..] == rest;
  }

  lemma {:induction false} ReadsColumnList(cols: seq<Column>, after: string)
    requires NoQuote(after) && (after == "" || after[0] != ',')
    ensures ReadNames(ColumnList(cols) + after) == (Names(cols), after)
  {
    if cols == [] {
      assert ColumnList(cols) + after == after;
    } else {
      var c, rest := cols[0], cols[1..];
      assert cols == [c] + rest;
      ColumnListSplit(c, rest);
      if rest == [] {
        LastName(c.name, after);
        assert Names(cols) == [c.name];
      } else {
        ReadsColumnList(rest, after);
        NextName(c.name, ColumnList(rest) + after);
        Regroup(Quoted(c.name) + ",", ColumnList(rest), after);
        Regroup(Quoted(c.name), ",", ColumnList(rest) + after);
      }
    }
  }

  datatype InsertReading = Put(replace: bool, table: string, names: seq<string>) | NoInsert

  /** INSERT INTO table(name,...) VALUES, or REPLACE INTO; the table is known. */
  function ReadPut(text: string, table: string): InsertReading {
    if "INSERT INTO " + table + "(" <= text then ReadColumns(text, "INSERT INTO " + table + "(", false, table)
    else if "REPLACE INTO " + table + "(" <= text then ReadColumns(text, "REPLACE INTO " + table + "(", true, table)
    else NoInsert
  }

  function ReadColumns(text: string, head: string, replace: bool, table: string): InsertReading
    requires head <= text
  {
    var (names, rest) := ReadNames(text[|head|..]);
    if rest == ") VALUES " then Put(replace, table, names) else NoInsert
  }

  lemma ReadsColumns(head: string, cols: seq<Column>, replace: bool, table: string)
    ensures var text := head + (ColumnList(cols) + ") VALUES ");
            head <= text && ReadColumns(text, head, replace, table) == Put(replace, table, Names(cols))
  {
    var list := ColumnList(cols) + ") VALUES ";
    assert (head + list)[|head|..] == list;
    ReadsColumnList(cols, ") VALUES ");
  }

  lemma ReadsReplace(table: string, rest: string)
    ensures var text := "REPLACE INTO " + table + "(" + rest; !("INSERT INTO " + table + "(" <= text)
  {
    var text := "REPLACE INTO " + table + "(" + rest;
    assert text[0] == 'R' && ("INSERT INTO " + table + "(")[0] == 'I';
  }

  function NewNames(cols: Columns): seq<string> {
    if cols == [] then []
    else (if cols[0].Some? && !cols[0].value.generated then [cols[0].value.name] else []) + NewNames(cols[1..])
  }

  function NewValues(cols: Columns): Args {
    if cols == [] then []
    else (if cols[0].Some? && !cols[0].value.generated then [cols[0].value.value] else []) + NewValues(cols[1..])
  }

  lemma {:induction false} WrittenNames(cols: Columns)
    ensures Names(Written(cols)) == NewNames(cols) && Values(Written(cols)) == NewValues(cols)
  {
    if cols != [] {
      var rest := Written(cols[1..]);
      WrittenNames(cols[1..]);
      if cols[0].Some? && !cols[0].value.generated {
        assert Written(cols)[1..] == rest;
      } else {
        assert Written(cols) == rest;
      }
    }
  }

  predicate InPairs(names: seq<string>, values: Args, items: seq<Item>) {
    |names| == |values| == |items| && forall i :: 0 <= i < |items| ==> items[i] == Bound(names[i], values[i])
  }

  lemma {:induction false} NewNamesAndValues(cols: Columns)
    ensures InPairs(NewNames(cols), NewValues(cols), NewItems(cols))
  {
    if cols != [] {
      NewNamesAndValues(cols[1..]);
      assert (cols[0].Some? && !cols[0].value.generated)
             || (NewNames(cols) == NewNames(cols[1..]) && NewValues(cols) == NewValues(cols[1..])
                 && NewItems(cols) == NewItems(cols[1..]));
    }
  }

  /** An insert names the columns to write, and its arguments are their new values in that order. */
  lemma InsertSays(r: Row, translateToInsert: bool)
    ensures ReadPut(InsertText(r, translateToInsert), r.quotedTable)
            == Put(!translateToInsert, r.quotedTable, NewNames(r.columns))
    ensures Values(Written(r.columns)) == NewValues(r.columns)
  {
    WrittenNames(r.columns);
    var cols := Written(r.columns);
    var head := (if translateToInsert then "INSERT INTO " else "REPLACE INTO ") + r.quotedTable + "(";
    Regroup(head, ColumnList(cols), ") VALUES ");
    ReadsColumns(head, cols, !translateToInsert, r.quotedTable);
    if !translateToInsert {
      ReadsReplace(r.quotedTable, ColumnList(cols) + ") VALUES ");
    }
  }

  /** The same of the statement that inserts a single row. */
  lemma SingleInsertSays(r: Row, translateToInsert: bool)
    ensures var s := Render(Unit(InsertText(r, translateToInsert), Values(Written(r.columns))));
            && s.sql[0].Lit? && ReadRows(s) == [NewValues(r.columns)]
            && ReadPut(s.sql[0].text, r.quotedTable) == Put(!translateToInsert, r.quotedTable, NewNames(r.columns))
  {
    InsertSays(r, translateToInsert);
    UnitReadsBack(InsertText(r, translateToInsert), Values(Written(r.columns)));
  }
}
