/** Turning rows into statements: single statements for deletes and updates,
    multi-row statements for inserts and replaces. */
module SinkStatements {
  import opened SinkTypes

  type Args = seq<Option<Value>>

  // ----- Statement text -----

  /** A placeholder is kept apart from the text around it. */
  datatype Token = Lit(text: string) | Hole

  datatype Stmt = Stmt(sql: seq<Token>, args: Args)

  function Holes(sql: seq<Token>): nat {
    if sql == [] then 0 else (if sql[0].Hole? then 1 else 0) + Holes(sql[1..])
  }

  lemma {:induction false} HolesConcat(a: seq<Token>, b: seq<Token>)
    ensures Holes(a + b) == Holes(a) + Holes(b)
  {
    if a == [] {
      assert a + b == b;
    } else {
      assert (a + b)[1..] == a[1..] + b;
      HolesConcat(a[1..], b);
    }
  }

  /** `n` placeholders separated by commas. */
  function Holders(n: nat): seq<Token> {
    if n == 0 then [] else if n == 1 then [Hole] else [Hole, Lit(",")] + Holders(n - 1)
  }

  lemma {:induction false} HoldersCount(n: nat)
    ensures Holes(Holders(n)) == n
  {
    if n > 1 {
      HoldersCount(n - 1);
      HolesConcat([Hole, Lit(",")], Holders(n - 1));
      assert [Hole, Lit(",")][1..] == [Lit(",")];
    }
  }

  function Group(n: nat): seq<Token> {
    [Lit("(")] + Holders(n) + [Lit(")")]
  }

  lemma GroupCount(n: nat)
    ensures Holes(Group(n)) == n
  {
    HoldersCount(n);
    HolesConcat([Lit("(")], Holders(n));
    HolesConcat([Lit("(")] + Holders(n), [Lit(")")]);
  }

  /** The groups of the rows, separated by commas. */
  function Groups(rows: seq<Args>): seq<Token> {
    if rows == [] then []
    else if |rows| == 1 then Group(|rows[0]|)
    else Group(|rows[0]|) + [Lit(",")] + Groups(rows[1..])
  }

  function Concat(rows: seq<Args>): Args {
    if rows == [] then [] else rows[0] + Concat(rows[1..])
  }

  lemma {:induction false} ConcatSnoc(rows: seq<Args>, row: Args)
    ensures Concat(rows + [row]) == Concat(rows) + row
  {
    if rows == [] {
      assert rows + [row] == [row];
      assert Concat([row]) == row;
    } else {
      assert (rows + [row])[1..] == rows[1..] + [row];
      ConcatSnoc(rows[1..], row);
    }
  }

  lemma {:induction false} GroupsSnoc(rows: seq<Args>, row: Args)
    ensures Groups(rows + [row]) == Groups(rows) + (if rows == [] then [] else [Lit(",")]) + Group(|row|)
  {
    if rows == [] {
      assert rows + [row] == [row];
    } else {
      assert (rows + [row])[1..] == rows[1..] + [row];
      GroupsSnoc(rows[1..], row);
      var head := Group(|rows[0]|) + [Lit(",")];
      if |rows| > 1 {
        assert Groups(rows + [row]) == head + (Groups(rows[1..]) + [Lit(",")] + Group(|row|));
      } else {
        assert rows[1..] == [] && Groups(rows[1..]) == [];
      }
    }
  }

  // ----- What the statements stand for -----

  /** A statement on one row. */
  datatype Dml = Insert(text: string, args: Args) | Other(stmt: Stmt)

  /** How a statement came about: a batch of rows for one text, a single insert, or neither. */
  datatype Plan = Batch(text: string, rows: seq<Args>) | Unit(text: string, args: Args) | Alone(stmt: Stmt)

  function Render(p: Plan): Stmt {
    match p
    case Batch(text, rows) => Stmt([Lit(text)] + Groups(rows), Concat(rows))
    case Unit(text, args) => Stmt([Lit(text), Lit("(")] + Holders(|args|) + [Lit(");")], args)
    case Alone(stmt) => stmt
  }

  function Inserts(text: string, rows: seq<Args>): seq<Dml> {
    if rows == [] then [] else [Insert(text, rows[0])] + Inserts(text, rows[1..])
  }

  function Expand(p: Plan): seq<Dml> {
    match p
    case Batch(text, rows) => Inserts(text, rows)
    case Unit(text, args) => [Insert(text, args)]
    case Alone(stmt) => [Other(stmt)]
  }

  function ExpandAll(plans: seq<Plan>): seq<Dml> {
    if plans == [] then [] else Expand(plans[0]) + ExpandAll(plans[1..])
  }

  lemma {:induction false} ExpandConcat(a: seq<Plan>, b: seq<Plan>)
    ensures ExpandAll(a + b) == ExpandAll(a) + ExpandAll(b)
  {
    if a == [] {
      assert a + b == b;
    } else {
      assert (a + b)[1..] == a[1..] + b;
      ExpandConcat(a[1..], b);
      assert Expand(a[0]) + (ExpandAll(a[1..]) + ExpandAll(b)) == Expand(a[0]) + ExpandAll(a[1..]) + ExpandAll(b);
    }
  }

  lemma ExpandSnoc(plans: seq<Plan>, p: Plan)
    ensures ExpandAll(plans + [p]) == ExpandAll(plans) + Expand(p)
  {
    ExpandConcat(plans, [p]);
    assert ExpandAll([p]) == Expand(p) + ExpandAll([]);
  }

  predicate Kept(d: Dml, text: string) {
    d.Other? || d.text == text
  }

  /** The deletes and updates, and the inserts of one text. */
  function Keep(dmls: seq<Dml>, text: string): seq<Dml> {
    if dmls == [] then [] else (if Kept(dmls[0], text) then [dmls[0]] else []) + Keep(dmls[1..], text)
  }

  /** The same deletes and updates in the same order, and for every text the same inserts
      in the same order and at the same places between them. */
  ghost predicate SamePerText(a: seq<Dml>, b: seq<Dml>) {
    forall text: string :: Keep(a, text) == Keep(b, text)
  }

  lemma {:induction false} KeepConcat(a: seq<Dml>, b: seq<Dml>, text: string)
    ensures Keep(a + b, text) == Keep(a, text) + Keep(b, text)
  {
    if a == [] {
      assert a + b == b;
    } else {
      assert (a + b)[0] == a[0] && (a + b)[1..] == a[1..] + b;
      KeepConcat(a[1..], b, text);
      var first := if Kept(a[0], text) then [a[0]] else [];
      assert first + (Keep(a[1..], text) + Keep(b, text)) == first + Keep(a[1..], text) + Keep(b, text);
    }
  }

  lemma {:induction false} KeepInserts(text: string, rows: seq<Args>, q: string)
    ensures Keep(Inserts(text, rows), q) == if q == text then Inserts(text, rows) else []
  {
    if rows != [] {
      KeepInserts(text, rows[1..], q);
      assert Inserts(text, rows)[1..] == Inserts(text, rows[1..]);
    }
  }

  lemma {:induction false} InsertsSnoc(text: string, rows: seq<Args>, row: Args)
    ensures Inserts(text, rows + [row]) == Inserts(text, rows) + [Insert(text, row)]
  {
    if rows == [] {
      assert (rows + [row])[1..] == [];
    } else {
      assert (rows + [row])[1..] == rows[1..] + [row];
      InsertsSnoc(text, rows[1..], row);
    }
  }

  // ----- Statements of one row -----

  function Escaped(name: string): string {
    if name == "" then "" else (if name[0] == '`' then "``" else [name[0]]) + Escaped(name[1..])
  }

  function Quoted(name: string): string {
    "`" + Escaped(name) + "`"
  }

  /** The columns that are written: present and not generated. */
  function Written(cols: Columns): seq<Column> {
    if cols == [] then []
    else (if cols[0].Some? && !cols[0].value.generated then [cols[0].value] else []) + Written(cols[1..])
  }

  function HandleColumns(cols: Columns): seq<Column> {
    if cols == [] then []
    else (if cols[0].Some? && cols[0].value.handleKey then [cols[0].value] else []) + HandleColumns(cols[1..])
  }

  function AllColumns(cols: Columns): seq<Column>
    requires forall i :: 0 <= i < |cols| ==> cols[i].Some?
  {
    if cols == [] then [] else [cols[0].value] + AllColumns(cols[1..])
  }

  /** Falling back on all columns needs all of them. */
  predicate WhereOk(cols: Columns, forceReplicate: bool) {
    HandleColumns(cols) == [] && forceReplicate ==> forall i :: 0 <= i < |cols| ==> cols[i].Some?
  }

  function WhereColumns(cols: Columns, forceReplicate: bool): seq<Column>
    requires WhereOk(cols, forceReplicate)
  {
    var keys := HandleColumns(cols);
    if keys == [] && forceReplicate then AllColumns(cols) else keys
  }

  function Values(cols: seq<Column>): Args {
    if cols == [] then [] else [cols[0].value] + Values(cols[1..])
  }

  function ColumnList(cols: seq<Column>): string {
    if cols == [] then ""
    else Quoted(cols[0].name) + (if |cols| == 1 then "" else ",") + ColumnList(cols[1..])
  }

  function InsertText(r: Row, translateToInsert: bool): string {
    (if translateToInsert then "INSERT INTO " else "REPLACE INTO ")
    + r.quotedTable + "(" + ColumnList(Written(r.columns)) + ") VALUES "
  }

  /** A null is matched by text, anything else by a placeholder. */
  function Condition(c: Column, equals: string): seq<Token> {
    if c.value.None? then [Lit(Quoted(c.name) + " IS NULL")] else [Lit(Quoted(c.name) + equals), Hole]
  }

  function WhereTokens(cols: seq<Column>, equals: string): seq<Token> {
    if cols == [] then []
    else Condition(cols[0], equals) + (if |cols| == 1 then [] else [Lit(" AND ")]) + WhereTokens(cols[1..], equals)
  }

  function WhereArgs(cols: seq<Column>): Args {
    if cols == [] then [] else (if cols[0].value.None? then [] else [cols[0].value]) + WhereArgs(cols[1..])
  }

  function SetTokens(cols: seq<Column>): seq<Token> {
    if cols == [] then []
    else [Lit(Quoted(cols[0].name) + "="), Hole] + (if |cols| == 1 then [] else [Lit(",")]) + SetTokens(cols[1..])
  }

  function DeleteStmt(r: Row, forceReplicate: bool): Option<Stmt>
    requires WhereOk(r.preColumns, forceReplicate)
  {
    var cols := WhereColumns(r.preColumns, forceReplicate);
    if cols == [] then None
    else Some(Stmt([Lit("DELETE FROM " + r.quotedTable + " WHERE ")] + WhereTokens(cols, " = ") + [Lit(" LIMIT 1;")],
                   WhereArgs(cols)))
  }

  /** The WHERE clause is not looked at when there is nothing to set. */
  function UpdateStmt(r: Row, forceReplicate: bool): Option<Stmt>
    requires Written(r.columns) == [] || WhereOk(r.preColumns, forceReplicate)
  {
    var cols := Written(r.columns);
    if cols == [] then None
    else
      var where_ := WhereColumns(r.preColumns, forceReplicate);
      if where_ == [] then None
      else Some(Stmt([Lit("UPDATE " + r.quotedTable + " SET ")] + SetTokens(cols) + [Lit(" WHERE ")]
                     + WhereTokens(where_, "=") + [Lit(" LIMIT 1;")],
                     Values(cols) + WhereArgs(where_)))
  }

  /** As many arguments as placeholders. */
  predicate Matched(s: Stmt) {
    Holes(s.sql) == |s.args|
  }

  lemma {:induction false} WhereCount(cols: seq<Column>, equals: string)
    ensures Holes(WhereTokens(cols, equals)) == |WhereArgs(cols)|
  {
    if cols != [] {
      var item, sep := Condition(cols[0], equals), if |cols| == 1 then [] else [Lit(" AND ")];
      WhereCount(cols[1..], equals);
      HolesConcat(item, sep);
      HolesConcat(item + sep, WhereTokens(cols[1..], equals));
      assert item[1..] == [] || item[1..] == [Hole];
    }
  }

  lemma {:induction false} SetCount(cols: seq<Column>)
    ensures Holes(SetTokens(cols)) == |Values(cols)|
  {
    if cols != [] {
      var item, sep := [Lit(Quoted(cols[0].name) + "="), Hole], if |cols| == 1 then [] else [Lit(",")];
      SetCount(cols[1..]);
      HolesConcat(item, sep);
      HolesConcat(item + sep, SetTokens(cols[1..]));
      assert item[1..] == [Hole];
    }
  }

  lemma DeleteCount(r: Row, forceReplicate: bool)
    requires WhereOk(r.preColumns, forceReplicate) && DeleteStmt(r, forceReplicate).Some?
    ensures Matched(DeleteStmt(r, forceReplicate).value)
  {
    var cols := WhereColumns(r.preColumns, forceReplicate);
    var head, tail := [Lit("DELETE FROM " + r.quotedTable + " WHERE ")], [Lit(" LIMIT 1;")];
    WhereCount(cols, " = ");
    HolesConcat(head, WhereTokens(cols, " = "));
    HolesConcat(head + WhereTokens(cols, " = "), tail);
  }

  lemma UpdateCount(r: Row, forceReplicate: bool)
    requires Written(r.columns) == [] || WhereOk(r.preColumns, forceReplicate)
    requires UpdateStmt(r, forceReplicate).Some?
    ensures Matched(UpdateStmt(r, forceReplicate).value)
  {
    var cols, where_ := Written(r.columns), WhereColumns(r.preColumns, forceReplicate);
    var a: seq<Token> := [Lit("UPDATE " + r.quotedTable + " SET ")];
    var b: seq<Token>, c: seq<Token> := [Lit(" WHERE ")], [Lit(" LIMIT 1;")];
    SetCount(cols);
    WhereCount(where_, "=");
    HolesConcat(a, SetTokens(cols));
    HolesConcat(a + SetTokens(cols), b);
    HolesConcat(a + SetTokens(cols) + b, WhereTokens(where_, "="));
    HolesConcat(a + SetTokens(cols) + b + WhereTokens(where_, "="), c);
  }

  // ----- Placeholders and arguments of a batch -----

  lemma {:induction false} GroupsCount(rows: seq<Args>)
    ensures Holes(Groups(rows)) == |Concat(rows)|
  {
    if rows != [] {
      var n := |rows[0]|;
      GroupCount(n);
      GroupsCount(rows[1..]);
      HolesConcat(Group(n), [Lit(",")]);
      HolesConcat(Group(n) + [Lit(",")], Groups(rows[1..]));
    }
  }

  /** A statement for inserts has as many arguments as placeholders. */
  lemma PlanCount(p: Plan)
    requires !p.Alone?
    ensures Matched(Render(p))
  {
    match p
    case Batch(text, rows) =>
      GroupsCount(rows);
      HolesConcat([Lit(text)], Groups(rows));
    case Unit(text, args) =>
      var head: seq<Token> := [Lit(text), Lit("(")];
      HoldersCount(|args|);
      HolesConcat(head, Holders(|args|));
      HolesConcat(head + Holders(|args|), [Lit(");")]);
      assert head[1..] == [Lit("(")];
  }

  /** The number of placeholders in each group of a statement, after those already counted. */
  function Widths(sql: seq<Token>, counted: seq<nat>): seq<nat>
    decreases |sql|
  {
    if sql == [] then counted
    else if sql[0] == Lit("(") then Widths(sql[1..], counted + [0])
    else if sql[0].Hole? && counted != [] then
      Widths(sql[1..], counted[..|counted| - 1] + [counted[|counted| - 1] + 1])
    else Widths(sql[1..], counted)
  }

  lemma {:induction false} WidthsConcat(a: seq<Token>, b: seq<Token>, counted: seq<nat>)
    ensures Widths(a + b, counted) == Widths(b, Widths(a, counted))
    decreases |a|
  {
    if a == [] {
      assert a + b == b;
    } else {
      assert (a + b)[1..] == a[1..] + b;
      WidthsConcat(a[1..], b,
        if a[0] == Lit("(") then counted + [0]
        else if a[0].Hole? && counted != [] then counted[..|counted| - 1] + [counted[|counted| - 1] + 1]
        else counted);
    }
  }

  lemma {:induction false} WidthsHolders(n: nat, front: seq<nat>, k: nat)
    ensures Widths(Holders(n), front + [k]) == front + [k + n]
    decreases n
  {
    if n > 0 {
      assert (front + [k])[..|front|] == front;
      if n > 1 {
        var sql := Holders(n);
        assert sql[1..][1..] == Holders(n - 1) && sql[1..][0] == Lit(",");
        WidthsHolders(n - 1, front, k + 1);
      }
    }
  }

  lemma WidthsGroup(n: nat, counted: seq<nat>)
    ensures Widths(Group(n), counted) == counted + [n]
  {
    assert Group(n)[1..] == Holders(n) + [Lit(")")];
    WidthsConcat(Holders(n), [Lit(")")], counted + [0]);
    WidthsHolders(n, counted, 0);
  }

  function Lengths(rows: seq<Args>): seq<nat> {
    if rows == [] then [] else [|rows[0]|] + Lengths(rows[1..])
  }

  lemma {:induction false} WidthsGroups(rows: seq<Args>, counted: seq<nat>)
    ensures Widths(Groups(rows), counted) == counted + Lengths(rows)
    decreases |rows|
  {
    if rows != [] {
      var n, rest := |rows[0]|, rows[1..];
      WidthsGroup(n, counted);
      if rest != [] {
        var comma: seq<Token> := [Lit(",")];
        WidthsConcat(Group(n), comma, counted);
        WidthsConcat(Group(n) + comma, Groups(rest), counted);
        WidthsGroups(rest, counted + [n]);
      }
      assert counted + [n] + Lengths(rest) == counted + ([n] + Lengths(rest));
    }
  }

  function Sum(widths: seq<nat>): nat {
    if widths == [] then 0 else widths[0] + Sum(widths[1..])
  }

  /** Deals the arguments out to the groups. */
  function Split(args: Args, widths: seq<nat>): seq<Args>
    requires |args| == Sum(widths)
    decreases |widths|
  {
    if widths == [] then [] else [args[..widths[0]]] + Split(args[widths[0]..], widths[1..])
  }

  lemma {:induction false} SplitConcat(rows: seq<Args>)
    ensures |Concat(rows)| == Sum(Lengths(rows))
    ensures Split(Concat(rows), Lengths(rows)) == rows
  {
    if rows != [] {
      SplitConcat(rows[1..]);
      var widths, args := Lengths(rows), Concat(rows);
      assert widths[1..] == Lengths(rows[1..]);
      assert args[..|rows[0]|] == rows[0] && args[|rows[0]|..] == Concat(rows[1..]);
    }
  }

  /** The rows of a multi-row statement, from its placeholders and arguments. */
  function ReadRows(s: Stmt): seq<Args> {
    if s.sql == [] || |s.args| != Sum(Widths(s.sql[1..], [])) then [] else Split(s.args, Widths(s.sql[1..], []))
  }

  /** A multi-row statement can be read back into its text and its rows. */
  lemma BatchReadsBack(text: string, rows: seq<Args>)
    ensures var s := Render(Batch(text, rows));
            s.sql[0] == Lit(text) && |s.args| == Sum(Widths(s.sql[1..], [])) && ReadRows(s) == rows
  {
    var s := Render(Batch(text, rows));
    assert s.sql[1..] == Groups(rows);
    WidthsGroups(rows, []);
    assert [] + Lengths(rows) == Lengths(rows);
    SplitConcat(rows);
  }

  lemma SplitOne(args: Args)
    ensures |args| == Sum([|args|]) && Split(args, [|args|]) == [args]
  {
    var widths := [|args|];
    assert widths[1..] == [];
    assert Sum(widths) == |args|;
    assert args[..|args|] == args && args[|args|..] == [];
    assert Split(args[|args|..], []) == [];
  }

  /** So can a statement that inserts a single row. */
  lemma UnitReadsBack(text: string, args: Args)
    ensures var s := Render(Unit(text, args)); s.sql[0] == Lit(text) && ReadRows(s) == [args]
  {
    var s := Render(Unit(text, args));
    var rest := s.sql[1..];
    assert rest == [Lit("(")] + Holders(|args|) + [Lit(");")];
    assert rest[1..] == Holders(|args|) + [Lit(");")];
    WidthsConcat(Holders(|args|), [Lit(");")], [0]);
    WidthsHolders(|args|, [], 0);
    assert [0] == [] + [0] && [|args|] == [] + [0 + |args|];
    assert Widths(rest, []) == [|args|];
    SplitOne(args);
  }
}
