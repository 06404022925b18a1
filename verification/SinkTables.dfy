/** What the statements of a row change do to the rows of a table. */
module SinkTables {
  import opened SinkTypes
  import opened SinkStatements
  import opened SinkBatches
  import opened SinkReading

  type Tuple = map<string, Option<Value>>
  type Table = set<Tuple>

  // ----- What a server does with a statement -----

  /** Nothing equals null. */
  predicate Holds(i: Item, x: Tuple) {
    match i
    case Bound(name, value) => name in x && x[name] == value && value.Some?
    case IsNull(name) => name in x && x[name].None?
    case Loose(_) => false
    case Text(_) => false
  }

  predicate Selects(wheres: seq<Item>, x: Tuple) {
    forall i :: 0 <= i < |wheres| ==> Holds(wheres[i], x)
  }

  function Assign(sets: seq<Item>, x: Tuple): Tuple {
    if sets == [] then x
    else Assign(sets[1..], if sets[0].Bound? then x[sets[0].name := sets[0].value] else x)
  }

  function Paired(names: seq<string>, values: Args): seq<Item>
    requires |names| == |values|
  {
    if names == [] then [] else [Bound(names[0], values[0])] + Paired(names[1..], values[1..])
  }

  predicate SameOn(key: set<string>, x: Tuple, y: Tuple) {
    forall n :: n in key ==> n in x && n in y && x[n].Some? && x[n] == y[n]
  }

  /** Two rows that a unique key does not let stand side by side. */
  predicate Clash(keys: set<set<string>>, x: Tuple, y: Tuple) {
    exists k :: k in keys && SameOn(k, x, y)
  }

  predicate Puts(p: InsertReading, args: Args, keys: set<set<string>>, t: Table, t': Table) {
    && p.Put? && |p.names| == |args|
    && var row := Assign(Paired(p.names, args), map[]);
       if p.replace then t' == (set x | x in t && !Clash(keys, x, row)) + {row}
       else (forall x :: x in t ==> !Clash(keys, x, row)) && t' == t + {row}
  }

  predicate Changes(sets: seq<Item>, wheres: seq<Item>, t: Table, t': Table) {
    || (exists x :: x in t && Selects(wheres, x) && t' == t - {x} + {Assign(sets, x)})
    || (t' == t && forall x :: x in t ==> !Selects(wheres, x))
  }

  predicate Removes(wheres: seq<Item>, t: Table, t': Table) {
    || (exists x :: x in t && Selects(wheres, x) && t' == t - {x})
    || (t' == t && forall x :: x in t ==> !Selects(wheres, x))
  }

  /** The statement on the table turns its rows from `t` to `t'`. */
  predicate Executes(d: Dml, table: string, keys: set<set<string>>, t: Table, t': Table) {
    match d
    case Insert(text, args) => Puts(ReadPut(text, table), args, keys, t, t')
    case Other(s) =>
      match Read(s)
      case Update(name, sets, wheres) => name == table && Changes(sets, wheres, t, t')
      case Delete(name, wheres) => name == table && Removes(wheres, t, t')
      case Unknown => false
  }

  ghost predicate ExecutesAll(dmls: seq<Dml>, table: string, keys: set<set<string>>, t: Table, t': Table) {
    if dmls == [] then t' == t
    else exists m :: Executes(dmls[0], table, keys, t, m) && ExecutesAll(dmls[1..], table, keys, m, t')
  }

  // ----- What a row change means -----

  /** The column tells which row is meant. */
  predicate Identifies(c: Option<Column>, cols: Columns, forceReplicate: bool) {
    c.Some? && (c.value.handleKey || (forceReplicate && !HasHandle(cols)))
  }

  predicate HasOld(x: Tuple, cols: Columns, forceReplicate: bool) {
    forall i :: 0 <= i < |cols| && Identifies(cols[i], cols, forceReplicate) ==>
      cols[i].value.name in x && x[cols[i].value.name] == cols[i].value.value
  }

  function Overwritten(cols: Columns, x: Tuple): Tuple {
    if cols == [] then x
    else Overwritten(cols[1..],
           if cols[0].Some? && !cols[0].value.generated then x[cols[0].value.name := cols[0].value.value] else x)
  }

  predicate AtMostOne(t: Table, cols: Columns, forceReplicate: bool) {
    forall x, y :: x in t && y in t && HasOld(x, cols, forceReplicate) && HasOld(y, cols, forceReplicate) ==> x == y
  }

  /** There is something to go by. */
  predicate Identified(cols: Columns, forceReplicate: bool) {
    exists i :: 0 <= i < |cols| && Identifies(cols[i], cols, forceReplicate)
  }

  /** There is something to write. */
  predicate Writes(cols: Columns) {
    exists i :: 0 <= i < |cols| && cols[i].Some? && !cols[i].value.generated
  }

  // ----- The two agree -----

  lemma {:induction false} NewIsOverwritten(cols: Columns, x: Tuple)
    ensures Assign(NewItems(cols), x) == Overwritten(cols, x)
    ensures NewItems(cols) != [] <==> Writes(cols)
  {
    if cols != [] {
      var rest := cols[1..];
      assert forall i :: 0 <= i < |rest| ==> rest[i] == cols[i + 1];
      if cols[0].Some? && !cols[0].value.generated {
        NewIsOverwritten(rest, x[cols[0].value.name := cols[0].value.value]);
        assert NewItems(cols)[1..] == NewItems(rest);
      } else {
        NewIsOverwritten(rest, x);
        assert NewItems(cols) == NewItems(rest);
        assert Writes(cols) <==> Writes(rest);
      }
    }
  }

  lemma {:induction false} PairedIsItems(names: seq<string>, values: Args, items: seq<Item>)
    requires InPairs(names, values, items)
    ensures Paired(names, values) == items
  {
    if names != [] {
      PairedIsItems(names[1..], values[1..], items[1..]);
      assert items == [items[0]] + items[1..];
    }
  }

  predicate OldPart(x: Tuple, cols: Columns, all: bool) {
    forall i :: 0 <= i < |cols| && cols[i].Some? && (all || cols[i].value.handleKey) ==>
      cols[i].value.name in x && x[cols[i].value.name] == cols[i].value.value
  }

  predicate OldAny(cols: Columns, all: bool) {
    exists i :: 0 <= i < |cols| && cols[i].Some? && (all || cols[i].value.handleKey)
  }

  lemma SelectsMore(i: Item, rest: seq<Item>, x: Tuple)
    ensures Selects([i] + rest, x) <==> Holds(i, x) && Selects(rest, x)
  {
    var all := [i] + rest;
    assert all[0] == i && forall k :: 0 <= k < |rest| ==> all[k + 1] == rest[k];
    if Selects(all, x) {
      forall k | 0 <= k < |rest| ensures Holds(rest[k], x) { assert Holds(all[k + 1], x); }
    }
  }

  lemma {:induction false} OldIsSelected(cols: Columns, all: bool, x: Tuple)
    ensures Selects(OldItems(cols, all), x) <==> OldPart(x, cols, all)
    ensures OldItems(cols, all) != [] <==> OldAny(cols, all)
  {
    if cols != [] {
      var rest := cols[1..];
      assert forall i :: 0 <= i < |rest| ==> rest[i] == cols[i + 1];
      OldIsSelected(rest, all, x);
      if cols[0].Some? && (all || cols[0].value.handleKey) {
        SelectsMore(OldItem(cols[0].value), OldItems(rest, all), x);
        assert OldPart(x, cols, all) <==> Holds(OldItem(cols[0].value), x) && OldPart(x, rest, all);
      } else {
        assert OldItems(cols, all) == OldItems(rest, all);
        assert OldPart(x, cols, all) <==> OldPart(x, rest, all);
        assert OldAny(cols, all) <==> OldAny(rest, all);
      }
    }
  }

  lemma ConditionsMean(cols: Columns, forceReplicate: bool, x: Tuple)
    ensures Selects(Conditions(cols, forceReplicate), x) <==> HasOld(x, cols, forceReplicate)
    ensures Conditions(cols, forceReplicate) != [] <==> Identified(cols, forceReplicate)
  {
    var all := forceReplicate && !HasHandle(cols);
    OldIsSelected(cols, all, x);
    assert forall i :: 0 <= i < |cols| ==>
      (Identifies(cols[i], cols, forceReplicate) <==> cols[i].Some? && (all || cols[i].value.handleKey));
  }

  // ----- The statements of a row change -----

  function Without(t: Table, cols: Columns, forceReplicate: bool): Table {
    set x | x in t && !HasOld(x, cols, forceReplicate)
  }

  function Clashing(t: Table, keys: set<set<string>>, row: Tuple): Table {
    set x | x in t && Clash(keys, x, row)
  }

  function Renewed(t: Table, r: Row, forceReplicate: bool): Table {
    set x | x in t && HasOld(x, r.preColumns, forceReplicate) :: Overwritten(r.columns, x)
  }

  lemma DeleteRemoves(s: Stmt, r: Row, forceReplicate: bool, keys: set<set<string>>, t: Table, t': Table)
    requires SaysDelete(s, r, forceReplicate) && AtMostOne(t, r.preColumns, forceReplicate)
    ensures Executes(Other(s), r.quotedTable, keys, t, t') <==> t' == Without(t, r.preColumns, forceReplicate)
  {
    var wheres, rest := Conditions(r.preColumns, forceReplicate), Without(t, r.preColumns, forceReplicate);
    forall x: Tuple ensures Selects(wheres, x) <==> HasOld(x, r.preColumns, forceReplicate) {
      ConditionsMean(r.preColumns, forceReplicate, x);
    }
    if x :| x in t && HasOld(x, r.preColumns, forceReplicate) {
      assert rest == t - {x};
    } else {
      assert rest == t;
    }
  }

  lemma UpdateRenews(s: Stmt, r: Row, forceReplicate: bool, keys: set<set<string>>, t: Table, t': Table)
    requires SaysUpdate(s, r, forceReplicate) && AtMostOne(t, r.preColumns, forceReplicate)
    ensures Executes(Other(s), r.quotedTable, keys, t, t') <==>
            t' == Without(t, r.preColumns, forceReplicate) + Renewed(t, r, forceReplicate)
  {
    var wheres, sets := Conditions(r.preColumns, forceReplicate), NewItems(r.columns);
    var rest, new_ := Without(t, r.preColumns, forceReplicate), Renewed(t, r, forceReplicate);
    forall x: Tuple ensures Selects(wheres, x) <==> HasOld(x, r.preColumns, forceReplicate) {
      ConditionsMean(r.preColumns, forceReplicate, x);
    }
    if x :| x in t && HasOld(x, r.preColumns, forceReplicate) {
      NewIsOverwritten(r.columns, x);
      assert rest == t - {x} && new_ == {Overwritten(r.columns, x)};
    } else {
      assert rest == t && new_ == {};
      assert rest + new_ == t;
    }
  }

  lemma InsertPuts(r: Row, translateToInsert: bool, keys: set<set<string>>, t: Table, t': Table)
    ensures var d, row := Insert(InsertText(r, translateToInsert), Values(Written(r.columns))),
                          Overwritten(r.columns, map[]);
            Executes(d, r.quotedTable, keys, t, t') <==>
            && (translateToInsert ==> Clashing(t, keys, row) == {})
            && t' == t - Clashing(t, keys, row) + {row}
  {
    var row := Overwritten(r.columns, map[]);
    InsertSays(r, translateToInsert);
    NewNamesAndValues(r.columns);
    PairedIsItems(NewNames(r.columns), NewValues(r.columns), NewItems(r.columns));
    NewIsOverwritten(r.columns, map[]);
    assert (set x | x in t && !Clash(keys, x, row)) == t - Clashing(t, keys, row);
    if Clashing(t, keys, row) == {} {
      forall x | x in t ensures !Clash(keys, x, row) { assert x !in Clashing(t, keys, row); }
      assert t - Clashing(t, keys, row) == t;
    }
  }

  /** The table after the change of a row: the old row is gone, if there is something to tell it by, and the new
      one is there, if there is anything to write, in place of those it clashes with. */
  function Replaced(t: Table, r: Row, forceReplicate: bool, keys: set<set<string>>): Table {
    var row := Overwritten(r.columns, map[]);
    var kept := if Identified(r.preColumns, forceReplicate) then Without(t, r.preColumns, forceReplicate) else t;
    if Writes(r.columns) then kept - Clashing(kept, keys, row) + {row} else kept
  }

  lemma ExecutesOne(d: Dml, table: string, keys: set<set<string>>, t: Table, t': Table)
    ensures ExecutesAll([d], table, keys, t, t') <==> Executes(d, table, keys, t, t')
  {
    assert [d][1..] == [];
    if Executes(d, table, keys, t, t') {
      assert ExecutesAll([], table, keys, t', t');
    }
  }

  lemma ExecutesTwo(d: Dml, e: Dml, table: string, keys: set<set<string>>, t: Table, m: Table, t': Table)
    requires forall m' :: Executes(d, table, keys, t, m') <==> m' == m
    ensures ExecutesAll([d, e], table, keys, t, t') <==> Executes(e, table, keys, m, t')
  {
    assert [d, e][1..] == [e];
    assert Executes(d, table, keys, t, m);
    ExecutesOne(e, table, keys, m, t');
  }

  predicate Unambiguous(t: Table, r: Row, o: Options) {
    Identified(r.preColumns, o.forceReplicate) ==> AtMostOne(t, r.preColumns, o.forceReplicate)
  }

  lemma WritesWritten(cols: Columns)
    ensures Written(cols) != [] <==> Writes(cols)
  {
    NewColumns(cols);
    NewIsOverwritten(cols, map[]);
    SetColumnar(Written(cols));
  }

  lemma InsertOfPuts(r: Row, o: Options, keys: set<set<string>>, t: Table, t': Table)
    ensures ExecutesAll(InsertOf(r, o), r.quotedTable, keys, t, t') <==>
            var row := Overwritten(r.columns, map[]);
            if !Writes(r.columns) then t' == t
            else (o.translateToInsert ==> Clashing(t, keys, row) == {}) && t' == t - Clashing(t, keys, row) + {row}
  {
    WritesWritten(r.columns);
    if Writes(r.columns) {
      InsertPuts(r, o.translateToInsert, keys, t, t');
      ExecutesOne(Insert(InsertText(r, o.translateToInsert), Values(Written(r.columns))), r.quotedTable, keys, t, t');
    }
  }

  lemma DeleteThenInsert(r: Row, o: Options, keys: set<set<string>>, t: Table, t': Table)
    requires RowOk(r, o) && !IsUpdate(r, o) && Unambiguous(t, r, o)
    ensures var kept := if Identified(r.preColumns, o.forceReplicate) then Without(t, r.preColumns, o.forceReplicate)
                        else t;
            ExecutesAll(DmlsOf(r, o), r.quotedTable, keys, t, t')
            <==> ExecutesAll(InsertOf(r, o), r.quotedTable, keys, kept, t')
  {
    var ins, stmt := InsertOf(r, o), DeleteStmt(r, o.forceReplicate);
    DeleteSays(r, o.forceReplicate);
    ConditionsMean(r.preColumns, o.forceReplicate, map[]);
    if stmt.Some? {
      var d, kept := Other(stmt.value), Without(t, r.preColumns, o.forceReplicate);
      forall m ensures Executes(d, r.quotedTable, keys, t, m) <==> m == kept {
        DeleteRemoves(stmt.value, r, o.forceReplicate, keys, t, m);
      }
      if ins == [] {
        assert DmlsOf(r, o) == [d];
        ExecutesOne(d, r.quotedTable, keys, t, t');
      } else {
        assert DmlsOf(r, o) == [d, ins[0]];
        ExecutesTwo(d, ins[0], r.quotedTable, keys, t, kept, t');
        assert ins == [ins[0]];
        ExecutesOne(ins[0], r.quotedTable, keys, kept, t');
      }
    } else {
      assert DmlsOf(r, o) == ins;
    }
  }

  /** In safe mode the statements of a row change replace the old row by the new one. */
  lemma SafeModeReplaces(r: Row, o: Options, keys: set<set<string>>, t: Table, t': Table)
    requires RowOk(r, o) && !o.translateToInsert && Unambiguous(t, r, o)
    ensures ExecutesAll(DmlsOf(r, o), r.quotedTable, keys, t, t') <==> t' == Replaced(t, r, o.forceReplicate, keys)
  {
    var kept := if Identified(r.preColumns, o.forceReplicate) then Without(t, r.preColumns, o.forceReplicate) else t;
    DeleteThenInsert(r, o, keys, t, t');
    InsertOfPuts(r, o, keys, kept, t');
  }

  /** Doing it all over again, as after a restart, changes nothing. */
  lemma SafeModeAgain(r: Row, o: Options, keys: set<set<string>>, t: Table, t': Table, t'': Table)
    requires RowOk(r, o) && !o.translateToInsert && Unambiguous(t, r, o)
    requires ExecutesAll(DmlsOf(r, o), r.quotedTable, keys, t, t')
    ensures ExecutesAll(DmlsOf(r, o), r.quotedTable, keys, t', t'') <==> t'' == t'
  {
    SafeModeReplaces(r, o, keys, t, t');
    var row := Overwritten(r.columns, map[]);
    if Writes(r.columns) {
      forall x | x in t' && x != row
        ensures !Clash(keys, x, row)
        ensures Identified(r.preColumns, o.forceReplicate) ==> !HasOld(x, r.preColumns, o.forceReplicate)
      {
      }
    }
    assert Unambiguous(t', r, o);
    SafeModeReplaces(r, o, keys, t', t'');
    assert Replaced(t', r, o.forceReplicate, keys) == t';
  }

  /** Otherwise an update is done in place. */
  lemma UpdatesInPlace(r: Row, o: Options, keys: set<set<string>>, t: Table, t': Table)
    requires RowOk(r, o) && IsUpdate(r, o) && Unambiguous(t, r, o)
    ensures ExecutesAll(DmlsOf(r, o), r.quotedTable, keys, t, t') <==>
            t' == if Writes(r.columns) && Identified(r.preColumns, o.forceReplicate)
                  then Without(t, r.preColumns, o.forceReplicate) + Renewed(t, r, o.forceReplicate) else t
  {
    var stmt := UpdateStmt(r, o.forceReplicate);
    UpdateSays(r, o.forceReplicate);
    NewIsOverwritten(r.columns, map[]);
    ConditionsMean(r.preColumns, o.forceReplicate, map[]);
    if stmt.Some? {
      UpdateRenews(stmt.value, r, o.forceReplicate, keys, t, t');
      ExecutesOne(Other(stmt.value), r.quotedTable, keys, t, t');
    }
  }

  /** A row that is new or gone; an insert fails if it clashes. */
  lemma InsertsOrDeletes(r: Row, o: Options, keys: set<set<string>>, t: Table, t': Table)
    requires RowOk(r, o) && o.translateToInsert && !IsUpdate(r, o) && Unambiguous(t, r, o)
    ensures var row := Overwritten(r.columns, map[]);
            ExecutesAll(DmlsOf(r, o), r.quotedTable, keys, t, t') <==>
            if Writes(r.columns) then Clashing(t, keys, row) == {} && t' == t + {row}
            else t' == if Identified(r.preColumns, o.forceReplicate) then Without(t, r.preColumns, o.forceReplicate)
                       else t
  {
    var kept := if Identified(r.preColumns, o.forceReplicate) then Without(t, r.preColumns, o.forceReplicate) else t;
    DeleteThenInsert(r, o, keys, t, t');
    InsertOfPuts(r, o, keys, kept, t');
  }
}
