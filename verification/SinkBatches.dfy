/** Preparing the statements for a batch of rows, and why that preserves meaning. */
module SinkBatches {
  import opened SinkTypes
  import opened SinkStatements
  import Prepare = SinkPrepare

  function Max(a: int, b: int): int { if a > b then a else b }

  /** The statements follow the plans; each has as many arguments as placeholders, and every
      multi-row statement has at least one row and no more than the batch size. */
  ghost predicate Follows(stmts: seq<Stmt>, plans: seq<Plan>, batchSize: int) {
    && |stmts| == |plans|
    && forall i :: 0 <= i < |plans| ==>
         && stmts[i] == Render(plans[i]) && Matched(stmts[i])
         && (plans[i].Batch? ==> 1 <= |plans[i].rows| <= Max(1, batchSize))
  }

  // ----- Grouping rows into multi-row statements -----

  /** A statement that is still being extended. */
  function Partial(text: string, rows: seq<Args>): seq<Token> {
    [Lit(text)] + Groups(rows) + if rows == [] then [] else [Lit(",")]
  }

  lemma RowAdded(text: string, rows: seq<Args>, row: Args)
    ensures Render(Batch(text, rows + [row])) == Stmt(Partial(text, rows) + Group(|row|), Concat(rows) + row)
    ensures Partial(text, rows + [row]) == Partial(text, rows) + Group(|row|) + [Lit(",")]
  {
    GroupsSnoc(rows, row);
    ConcatSnoc(rows, row);
    assert [Lit(text)] + Groups(rows + [row]) == Partial(text, rows) + Group(|row|);
  }

  /** Statements so far, then the rows of the one under way, are the rows seen. */
  ghost predicate Emitting(plans: seq<Plan>, text: string, cached: seq<Args>, seen: seq<Args>) {
    ExpandAll(plans) + Inserts(text, cached) == Inserts(text, seen)
  }

  lemma EmitRow(plans: seq<Plan>, text: string, cached: seq<Args>, seen: seq<Args>, row: Args)
    requires Emitting(plans, text, cached, seen)
    ensures Emitting(plans, text, cached + [row], seen + [row])
  {
    InsertsSnoc(text, cached, row);
    InsertsSnoc(text, seen, row);
  }

  lemma EmitBatch(plans: seq<Plan>, text: string, cached: seq<Args>, seen: seq<Args>)
    requires Emitting(plans, text, cached, seen)
    ensures Emitting(plans + [Batch(text, cached)], text, [], seen)
  {
    ExpandSnoc(plans, Batch(text, cached));
    assert Inserts(text, []) == [];
  }

  ghost predicate AllBatches(plans: seq<Plan>) {
    forall i :: 0 <= i < |plans| ==> plans[i].Batch?
  }

  /** The rows of the statements with the text, as they stand in the statements. */
  function ReadBack(stmts: seq<Stmt>, text: string): seq<Args> {
    if stmts == [] then []
    else (if stmts[0].sql != [] && stmts[0].sql[0] == Lit(text) then ReadRows(stmts[0]) else [])
         + ReadBack(stmts[1..], text)
  }

  lemma {:induction false} InsertsConcat(text: string, a: seq<Args>, b: seq<Args>)
    ensures Inserts(text, a + b) == Inserts(text, a) + Inserts(text, b)
  {
    if a == [] {
      assert a + b == b;
    } else {
      assert (a + b)[1..] == a[1..] + b;
      InsertsConcat(text, a[1..], b);
    }
  }

  lemma {:induction false} InsertsInjective(text: string, a: seq<Args>, b: seq<Args>)
    requires Inserts(text, a) == Inserts(text, b)
    ensures a == b
  {
    if a != [] && b != [] {
      assert Inserts(text, a)[1..] == Inserts(text, b)[1..];
      InsertsInjective(text, a[1..], b[1..]);
    }
  }

  /** What stands in the statements is what they are planned for. */
  lemma {:induction false} PlannedIsRead(stmts: seq<Stmt>, plans: seq<Plan>, batchSize: int, q: string)
    requires Follows(stmts, plans, batchSize) && AllBatches(plans)
    ensures Keep(ExpandAll(plans), q) == Inserts(q, ReadBack(stmts, q))
    decreases |plans|
  {
    if plans != [] {
      var p, rest := plans[0], ReadBack(stmts[1..], q);
      PlannedIsRead(stmts[1..], plans[1..], batchSize, q);
      assert stmts[0] == Render(p);
      BatchReadsBack(p.text, p.rows);
      assert ExpandAll(plans) == Inserts(p.text, p.rows) + ExpandAll(plans[1..]);
      KeepConcat(Inserts(p.text, p.rows), ExpandAll(plans[1..]), q);
      KeepInserts(p.text, p.rows, q);
      if q == p.text {
        assert ReadBack(stmts, q) == p.rows + rest;
        InsertsConcat(q, p.rows, rest);
      } else {
        assert ReadBack(stmts, q) == [] + rest == rest;
      }
    }
  }

  lemma RowsAreRead(stmts: seq<Stmt>, plans: seq<Plan>, batchSize: int, text: string, vals: seq<Args>)
    requires Follows(stmts, plans, batchSize) && AllBatches(plans)
             && Keep(ExpandAll(plans), text) == Inserts(text, vals)
    ensures ReadBack(stmts, text) == vals
  {
    PlannedIsRead(stmts, plans, batchSize, text);
    InsertsInjective(text, ReadBack(stmts, text), vals);
  }

  lemma AllEmitted(stmts: seq<Stmt>, plans: seq<Plan>, batchSize: int, text: string, vals: seq<Args>)
    requires Follows(stmts, plans, batchSize) && AllBatches(plans) && Emitting(plans, text, [], vals)
    ensures ExpandAll(plans) == Inserts(text, vals) && ReadBack(stmts, text) == vals
  {
    assert ExpandAll(plans) + Inserts(text, []) == ExpandAll(plans);
    KeepInserts(text, vals, text);
    RowsAreRead(stmts, plans, batchSize, text, vals);
  }

  /** The state of a pass over the rows of one text. */
  ghost predicate Underway(stmts: seq<Stmt>, plans: seq<Plan>, batchSize: int, text: string, query: seq<Token>,
                           args: Args,
                           cached: seq<Args>, seen: seq<Args>) {
    && Follows(stmts, plans, batchSize) && AllBatches(plans) && Emitting(plans, text, cached, seen)
    && query == Partial(text, cached) && args == Concat(cached)
  }

  lemma StartUnderway(batchSize: int, text: string)
    ensures Underway([], [], batchSize, text, [Lit(text)], [], [], [])
  {
    assert [Lit(text)] + Groups([]) + [] == [Lit(text)];
    assert Inserts(text, []) == [];
  }

  lemma RowTaken(stmts: seq<Stmt>, plans: seq<Plan>, batchSize: int, text: string, query: seq<Token>, args: Args,
                 cached: seq<Args>, seen: seq<Args>, val: Args)
    requires Underway(stmts, plans, batchSize, text, query, args, cached, seen)
    ensures Underway(stmts, plans, batchSize, text, query + Group(|val|) + [Lit(",")], args + val, cached + [val],
                     seen + [val])
  {
    RowAdded(text, cached, val);
    EmitRow(plans, text, cached, seen, val);
    ConcatSnoc(cached, val);
  }

  lemma BatchDone(stmts: seq<Stmt>, plans: seq<Plan>, batchSize: int, text: string, query: seq<Token>, args: Args,
                  cached: seq<Args>, seen: seq<Args>, val: Args)
    requires Underway(stmts, plans, batchSize, text, query, args, cached, seen) && |cached| + 1 <= Max(1, batchSize)
    ensures Underway(stmts + [Stmt(query + Group(|val|), args + val)], plans + [Batch(text, cached + [val])], batchSize,
                     text, [Lit(text)], [], [], seen + [val])
  {
    RowAdded(text, cached, val);
    EmitRow(plans, text, cached, seen, val);
    EmitBatch(plans, text, cached + [val], seen + [val]);
    PlanCount(Batch(text, cached + [val]));
  }

  /** The statements for the rows of one text. */
  method BatchRows(text: string, vals: seq<Args>, batchSize: int) returns (stmts: seq<Stmt>, ghost plans: seq<Plan>)
    ensures Follows(stmts, plans, batchSize) && AllBatches(plans)
    ensures ExpandAll(plans) == Inserts(text, vals)
    ensures ReadBack(stmts, text) == vals
  {
    stmts, plans := [], [];
    var query: seq<Token> := [Lit(text)];
    var cacheCount, cacheArgs := 0, [];
    ghost var cached: seq<Args> := [];
    var i := 0;
    StartUnderway(batchSize, text);
    while i < |vals|
      invariant 0 <= i <= |vals| && cacheCount == |cached|
      invariant Underway(stmts, plans, batchSize, text, query, cacheArgs, cached, vals[..i])
      invariant cached != [] ==> i < |vals| && cacheCount < batchSize
    {
      var val := vals[i];
      assert vals[..i + 1] == vals[..i] + [val];
      cacheCount := cacheCount + 1;
      if i == |vals| - 1 || cacheCount >= batchSize {
        BatchDone(stmts, plans, batchSize, text, query, cacheArgs, cached, vals[..i], val);
        stmts, plans := stmts + [Stmt(query + Group(|val|), cacheArgs + val)], plans + [Batch(text, cached + [val])];
        query := [Lit(text)];
        cacheCount, cacheArgs, cached := 0, [], [];
      } else {
        RowTaken(stmts, plans, batchSize, text, query, cacheArgs, cached, vals[..i], val);
        query := query + Group(|val|) + [Lit(",")];
        cacheArgs, cached := cacheArgs + val, cached + [val];
      }
      i := i + 1;
    }
    assert vals[..i] == vals;
    AllEmitted(stmts, plans, batchSize, text, vals);
  }

  /** The rows gathered for a text. */
  function RowsFor(cache: map<string, seq<Args>>, text: string): seq<Args> {
    if text in cache then cache[text] else []
  }

  /** The statements stand for the rows gathered for every text but those still to do. */
  ghost predicate Covers(plans: seq<Plan>, cache: map<string, seq<Args>>, todo: set<string>) {
    forall q: string {:trigger Keep(ExpandAll(plans), q)} ::
      Keep(ExpandAll(plans), q) == Inserts(q, if q in todo then [] else RowsFor(cache, q))
  }

  lemma CoversMore(plans: seq<Plan>, more: seq<Plan>, cache: map<string, seq<Args>>, todo: set<string>, text: string)
    requires Covers(plans, cache, todo) && text in todo && text in cache
             && ExpandAll(more) == Inserts(text, cache[text])
    ensures Covers(plans + more, cache, todo - {text})
  {
    forall q: string
      ensures Keep(ExpandAll(plans + more), q) == Inserts(q, if q in todo - {text} then [] else RowsFor(cache, q))
    {
      ExpandConcat(plans, more);
      KeepConcat(ExpandAll(plans), ExpandAll(more), q);
      KeepInserts(text, cache[text], q);
    }
  }

  lemma FollowsConcat(s: seq<Stmt>, p: seq<Plan>, t: seq<Stmt>, q: seq<Plan>, batchSize: int)
    requires Follows(s, p, batchSize) && Follows(t, q, batchSize)
    ensures Follows(s + t, p + q, batchSize)
  {
  }

  /** The texts are taken in any order. */
  method ReduceReplace(cache: map<string, seq<Args>>, batchSize: int) returns (stmts: seq<Stmt>, ghost plans: seq<Plan>)
    ensures Follows(stmts, plans, batchSize) && Covers(plans, cache, {})
    ensures forall q {:trigger ReadBack(stmts, q)} :: ReadBack(stmts, q) == RowsFor(cache, q)
  {
    stmts, plans := [], [];
    var todo := cache.Keys;
    while todo != {}
      invariant todo <= cache.Keys && Follows(stmts, plans, batchSize) && AllBatches(plans)
                && Covers(plans, cache, todo)
    {
      var text :| text in todo;
      var more, morePlans := BatchRows(text, cache[text], batchSize);
      CoversMore(plans, morePlans, cache, todo, text);
      FollowsConcat(stmts, plans, more, morePlans, batchSize);
      stmts, plans := stmts + more, plans + morePlans;
      todo := todo - {text};
    }
    forall q ensures ReadBack(stmts, q) == RowsFor(cache, q) {
      RowsAreRead(stmts, plans, batchSize, q, RowsFor(cache, q));
    }
  }

  // ----- Preparing a list of rows -----

  datatype Options = Options(translateToInsert: bool, forceReplicate: bool, batchReplaceEnabled: bool,
                             batchReplaceSize: int)

  function Optional(s: Option<Stmt>): seq<Dml> {
    if s.Some? then [Other(s.value)] else []
  }

  predicate IsUpdate(r: Row, o: Options) {
    o.translateToInsert && r.preColumns != [] && r.columns != []
  }

  function InsertOf(r: Row, o: Options): seq<Dml> {
    if r.columns == [] || Written(r.columns) == [] then []
    else [Insert(InsertText(r, o.translateToInsert), Values(Written(r.columns)))]
  }

  /** The columns that a WHERE clause needs are all there. */
  predicate RowOk(r: Row, o: Options) {
    || WhereOk(r.preColumns, o.forceReplicate)
    || (IsUpdate(r, o) && Written(r.columns) == [])
  }

  /** The statements of one row, without batching. */
  function DmlsOf(r: Row, o: Options): seq<Dml>
    requires RowOk(r, o)
  {
    if IsUpdate(r, o) then Optional(UpdateStmt(r, o.forceReplicate))
    else (if r.preColumns == [] then [] else Optional(DeleteStmt(r, o.forceReplicate))) + InsertOf(r, o)
  }

  predicate RowsOk(rows: seq<Row>, o: Options) {
    forall i :: 0 <= i < |rows| ==> RowOk(rows[i], o)
  }

  function Unbatched(rows: seq<Row>, o: Options): seq<Dml>
    requires RowsOk(rows, o)
  {
    if rows == [] then [] else DmlsOf(rows[0], o) + Unbatched(rows[1..], o)
  }

  /** The statements are some that the rows may be executed by. */
  ghost predicate Prepared(sqls: seq<Stmt>, plans: seq<Plan>, rows: seq<Row>, o: Options) {
    RowsOk(rows, o) && Follows(sqls, plans, o.batchReplaceSize) && SamePerText(ExpandAll(plans), Unbatched(rows, o))
  }

  lemma FirstRowsOk(rows: seq<Row>, n: nat, o: Options)
    requires n <= |rows|
    ensures RowsOk(rows, o) ==> RowsOk(rows[..n], o)
  {
    assert forall i :: 0 <= i < n ==> rows[..n][i] == rows[i];
  }

  lemma {:induction false} UnbatchedSnoc(rows: seq<Row>, r: Row, o: Options)
    requires RowsOk(rows, o) && RowOk(r, o)
    ensures RowsOk(rows + [r], o) && Unbatched(rows + [r], o) == Unbatched(rows, o) + DmlsOf(r, o)
  {
    var more := rows + [r];
    assert RowsOk(more, o);
    if rows == [] {
      assert more[1..] == [];
    } else {
      UnbatchedSnoc(rows[1..], r, o);
      assert more[1..] == rows[1..] + [r];
      assert more[0] == rows[0];
    }
  }

  /** Statements so far, then the rows gathered, are what the rows stand for, text by text. */
  ghost predicate Caught(plans: seq<Plan>, cache: map<string, seq<Args>>, done: seq<Dml>) {
    forall q: string {:trigger Keep(ExpandAll(plans), q)} {:trigger Keep(done, q)} ::
      Keep(ExpandAll(plans), q) + Inserts(q, RowsFor(cache, q)) == Keep(done, q)
  }

  lemma FlushCaught(plans: seq<Plan>, more: seq<Plan>, cache: map<string, seq<Args>>, done: seq<Dml>)
    requires Caught(plans, cache, done) && Covers(more, cache, {})
    ensures Caught(plans + more, map[], done)
  {
    forall q: string ensures Keep(ExpandAll(plans + more), q) + Inserts(q, RowsFor(map[], q)) == Keep(done, q) {
      ExpandConcat(plans, more);
      KeepConcat(ExpandAll(plans), ExpandAll(more), q);
      assert Inserts(q, []) == [];
    }
  }

  lemma PlanCaughtAt(plans: seq<Plan>, p: Plan, done: seq<Dml>, q: string)
    requires Keep(ExpandAll(plans), q) == Keep(done, q)
    ensures Keep(ExpandAll(plans + [p]), q) == Keep(done + Expand(p), q)
  {
    ExpandSnoc(plans, p);
    KeepConcat(ExpandAll(plans), Expand(p), q);
    KeepConcat(done, Expand(p), q);
  }

  lemma PlanCaught(plans: seq<Plan>, p: Plan, done: seq<Dml>)
    requires Caught(plans, map[], done)
    ensures Caught(plans + [p], map[], done + Expand(p))
  {
    forall q: string
      ensures Keep(ExpandAll(plans + [p]), q) + Inserts(q, RowsFor(map[], q)) == Keep(done + Expand(p), q)
    {
      assert Inserts(q, RowsFor(map[], q)) == [];
      assert Keep(ExpandAll(plans), q) == Keep(done, q);
      PlanCaughtAt(plans, p, done, q);
    }
  }

  lemma GatherCaught(plans: seq<Plan>, cache: map<string, seq<Args>>, done: seq<Dml>, text: string, args: Args)
    requires Caught(plans, cache, done)
    ensures Caught(plans, cache[text := RowsFor(cache, text) + [args]], done + [Insert(text, args)])
  {
    var cache' := cache[text := RowsFor(cache, text) + [args]];
    var one := [Insert(text, args)];
    forall q: string ensures Keep(ExpandAll(plans), q) + Inserts(q, RowsFor(cache', q)) == Keep(done + one, q) {
      assert Keep(ExpandAll(plans), q) + Inserts(q, RowsFor(cache, q)) == Keep(done, q);
      KeepConcat(done, one, q);
      GatherAt(RowsFor(cache, q), text, args, q);
      Prepare.Regroup(Keep(ExpandAll(plans), q), Inserts(q, RowsFor(cache, q)), Keep(one, q));
    }
  }

  lemma GatherAt(rows: seq<Args>, text: string, args: Args, q: string)
    ensures Inserts(q, if q == text then rows + [args] else rows) == Inserts(q, rows) + Keep([Insert(text, args)], q)
  {
    var one := [Insert(text, args)];
    assert one[1..] == [] && Keep(one[1..], q) == [];
    if q == text {
      InsertsSnoc(text, rows, args);
    }
  }

  lemma CaughtUp(plans: seq<Plan>, done: seq<Dml>)
    requires Caught(plans, map[], done)
    ensures SamePerText(ExpandAll(plans), done)
  {
    forall q: string ensures Keep(ExpandAll(plans), q) == Keep(done, q) {
      assert Inserts(q, RowsFor(map[], q)) == [];
    }
  }

  /** Statements and gathered rows stand for the statements on single rows in `done`. */
  ghost predicate Built(o: Options, sqls: seq<Stmt>, cache: map<string, seq<Args>>, rowCount: nat, plans: seq<Plan>,
                        done: seq<Dml>) {
    && Follows(sqls, plans, o.batchReplaceSize)
    && Caught(plans, cache, done)
    && rowCount == |done|
    && (!o.batchReplaceEnabled ==> cache == map[] && ExpandAll(plans) == done)
  }

  lemma CacheFlushed(o: Options, sqls: seq<Stmt>, cache: map<string, seq<Args>>, rowCount: nat, plans: seq<Plan>,
                     done: seq<Dml>,
                     more: seq<Stmt>, morePlans: seq<Plan>)
    requires Built(o, sqls, cache, rowCount, plans, done) && o.batchReplaceEnabled
    requires Follows(more, morePlans, o.batchReplaceSize) && Covers(morePlans, cache, {})
    ensures Built(o, sqls + more, map[], rowCount, plans + morePlans, done)
  {
    FlushCaught(plans, morePlans, cache, done);
    FollowsConcat(sqls, plans, more, morePlans, o.batchReplaceSize);
  }

  class DmlBuilder {
    const options: Options
    var sqls: seq<Stmt>
    var cache: map<string, seq<Args>>
    var rowCount: nat

    // The plans behind the statements, and the statements on single rows they stand for.
    ghost var plans: seq<Plan>
    ghost var done: seq<Dml>

    ghost predicate Valid()
      reads this
    {
      Built(options, sqls, cache, rowCount, plans, done)
    }

    constructor (options: Options)
      ensures Valid() && this.options == options && done == []
    {
      this.options := options;
      sqls, cache, rowCount, plans, done := [], map[], 0, [], [];
    }

    method FlushCache()
      requires Valid()
      modifies this`sqls, this`cache, this`plans
      ensures Valid() && cache == map[]
    {
      if options.batchReplaceEnabled && |cache| > 0 {
        var more, morePlans := ReduceReplace(cache, options.batchReplaceSize);
        CacheFlushed(options, sqls, cache, rowCount, plans, done, more, morePlans);
        sqls, plans := sqls + more, plans + morePlans;
        cache := map[];
      }
    }

    /** A statement of its own, after everything gathered. */
    method AddAlone(stmt: Option<Stmt>)
      requires Valid() && cache == map[] && (stmt.Some? ==> Matched(stmt.value))
      modifies this`sqls, this`plans, this`done, this`rowCount
      ensures Valid() && done == old(done) + Optional(stmt)
    {
      if stmt.Some? {
        AddPlan(Alone(stmt.value));
      }
    }

    method AddPlan(p: Plan)
      requires Valid() && cache == map[] && !p.Batch? && |Expand(p)| == 1 && Matched(Render(p))
      modifies this`sqls, this`plans, this`done, this`rowCount
      ensures Valid() && done == old(done) + Expand(p)
    {
      PlanCaught(plans, p, done);
      ExpandSnoc(plans, p);
      sqls, plans := sqls + [Render(p)], plans + [p];
      done := done + Expand(p);
      rowCount := rowCount + 1;
    }

    method Gather(text: string, args: Args)
      requires Valid() && options.batchReplaceEnabled
      modifies this`cache, this`done, this`rowCount
      ensures Valid() && done == old(done) + [Insert(text, args)]
    {
      GatherCaught(plans, cache, done, text, args);
      if text !in cache {
        cache := cache[text := []];
      }
      cache := cache[text := cache[text] + [args]];
      done := done + [Insert(text, args)];
      rowCount := rowCount + 1;
    }

    method AddInsert(r: Row)
      requires Valid()
      modifies this
      ensures Valid() && done == old(done) + InsertOf(r, options)
    {
      if |r.columns| != 0 && Written(r.columns) != [] {
        var text, args := InsertText(r, options.translateToInsert), Values(Written(r.columns));
        if options.batchReplaceEnabled {
          Gather(text, args);
        } else {
          PlanCount(Unit(text, args));
          AddPlan(Unit(text, args));
        }
      }
    }

    method AddUpdate(r: Row) returns (ok: bool)
      requires Valid() && IsUpdate(r, options)
      modifies this
      ensures ok <==> RowOk(r, options)
      ensures ok ==> Valid() && done == old(done) + DmlsOf(r, options)
    {
      FlushCache();
      var stmt;
      ok, stmt := Prepare.PrepareUpdate(r, options.forceReplicate);
      if ok {
        AddAlone(stmt);
      }
    }

    method AddDelete(r: Row) returns (ok: bool)
      requires Valid()
      modifies this
      ensures ok <==> WhereOk(r.preColumns, options.forceReplicate)
      ensures ok ==> Valid() && done == old(done) + Optional(DeleteStmt(r, options.forceReplicate))
    {
      FlushCache();
      var stmt;
      ok, stmt := Prepare.PrepareDelete(r, options.forceReplicate);
      if ok {
        AddAlone(stmt);
      }
    }

    /** `ok` is false where the source dereferences a missing column. */
    method AddRow(r: Row) returns (ok: bool)
      requires Valid()
      modifies this
      ensures ok <==> RowOk(r, options)
      ensures ok ==> Valid() && done == old(done) + DmlsOf(r, options)
    {
      if options.translateToInsert && |r.preColumns| != 0 && |r.columns| != 0 {
        ok := AddUpdate(r);
        return;
      }
      if |r.preColumns| != 0 {
        ok := AddDelete(r);
        if !ok {
          return;
        }
      }
      AddInsert(r);
      return true;
    }

    method AddNext(rows: seq<Row>, i: nat) returns (ok: bool)
      requires Valid() && i < |rows| && RowsOk(rows[..i], options) && done == Unbatched(rows[..i], options)
      modifies this
      ensures ok <==> RowsOk(rows[..i + 1], options)
      ensures ok ==> Valid() && done == Unbatched(rows[..i + 1], options)
    {
      ok := AddRow(rows[i]);
      assert rows[..i + 1] == rows[..i] + [rows[i]];
      if ok {
        UnbatchedSnoc(rows[..i], rows[i], options);
      } else {
        assert rows[..i + 1][i] == rows[i];
      }
    }

    method AddRows(rows: seq<Row>) returns (ok: bool)
      requires Valid() && done == []
      modifies this
      ensures ok <==> RowsOk(rows, options)
      ensures ok ==> Valid() && done == Unbatched(rows, options)
    {
      var i := 0;
      while i < |rows|
        invariant 0 <= i <= |rows| && Valid() && RowsOk(rows[..i], options) && done == Unbatched(rows[..i], options)
      {
        ok := AddNext(rows, i);
        if !ok {
          FirstRowsOk(rows, i + 1, options);
          return;
        }
        i := i + 1;
      }
      assert rows[..i] == rows;
      return true;
    }
  }

  /** The statements for the rows: read back, they are the statements of the rows one by one,
      except that inserts of different texts may have changed places between deletes and
      updates; without batching not even that. Each has as many arguments as placeholders.
      `ok` is false where the source dereferences a missing column. */
  method PrepareDMLs(rows: seq<Row>, options: Options)
    returns (ok: bool, sqls: seq<Stmt>, rowCount: nat, ghost plans: seq<Plan>)
    ensures ok <==> RowsOk(rows, options)
    ensures ok ==> Prepared(sqls, plans, rows, options)
    ensures ok ==> forall i :: 0 <= i < |sqls| ==> Holes(sqls[i].sql) == |sqls[i].args|
    ensures ok && !options.batchReplaceEnabled ==> ExpandAll(plans) == Unbatched(rows, options)
    ensures ok ==> rowCount == |Unbatched(rows, options)|
  {
    sqls, rowCount, plans := [], 0, [];
    var b := new DmlBuilder(options);
    ok := b.AddRows(rows);
    if !ok {
      return;
    }
    b.FlushCache();
    sqls, rowCount, plans := b.sqls, b.rowCount, b.plans;
    CaughtUp(plans, b.done);
  }
}
