/** The meaning of prepared statements: executing them has the effect of executing the
    rows one by one, as long as inserts of different texts commute. */
module SinkMeaning {
  import opened SinkTypes
  import opened SinkStatements
  import opened SinkBatches
  import Concurrency = SinkConcurrency

  /** A statement executes its rows in order. */
  function RunDmls<DB>(exec: (DB, Dml) -> DB, db: DB, dmls: seq<Dml>): DB
    decreases |dmls|
  {
    if dmls == [] then db else RunDmls(exec, exec(db, dmls[0]), dmls[1..])
  }

  predicate DifferentTexts(x: Dml, y: Dml) {
    x.Insert? && y.Insert? && x.text != y.text
  }

  ghost predicate Commute<DB(!new)>(exec: (DB, Dml) -> DB, x: Dml, y: Dml) {
    forall db: DB {:trigger exec(exec(db, x), y)} :: exec(exec(db, x), y) == exec(exec(db, y), x)
  }

  ghost predicate InsertsCommute<DB(!new)>(exec: (DB, Dml) -> DB, dmls: seq<Dml>) {
    forall x, y {:trigger Commute(exec, x, y)} :: x in dmls && y in dmls && DifferentTexts(x, y) ==> Commute(exec, x, y)
  }

  lemma {:induction false} RunConcat<DB>(exec: (DB, Dml) -> DB, db: DB, a: seq<Dml>, b: seq<Dml>)
    ensures RunDmls(exec, db, a + b) == RunDmls(exec, RunDmls(exec, db, a), b)
    decreases |a|
  {
    if a == [] {
      assert a + b == b;
    } else {
      assert (a + b)[1..] == a[1..] + b;
      RunConcat(exec, exec(db, a[0]), a[1..], b);
    }
  }

  /** A statement that commutes with all before it may as well come first. */
  lemma {:induction false} ToFront<DB(!new)>(exec: (DB, Dml) -> DB, db: DB, pre: seq<Dml>, x: Dml)
    requires forall y :: y in pre ==> Commute(exec, y, x)
    ensures RunDmls(exec, db, pre + [x]) == RunDmls(exec, exec(db, x), pre)
    decreases |pre|
  {
    if pre == [] {
      assert pre + [x] == [x];
    } else {
      assert (pre + [x])[1..] == pre[1..] + [x];
      ToFront(exec, exec(db, pre[0]), pre[1..], x);
      assert Commute(exec, pre[0], x);
    }
  }

  /** Where the first kept statement is. */
  lemma {:induction false} FirstKept(b: seq<Dml>, text: string) returns (k: nat)
    requires Keep(b, text) != []
    ensures k < |b| && b[k] == Keep(b, text)[0]
    ensures forall y :: y in b[..k] ==> !Kept(y, text)
    ensures Kept(b[0], text) ==> k == 0
  {
    if Kept(b[0], text) {
      k := 0;
    } else {
      var i := FirstKept(b[1..], text);
      k := i + 1;
      assert b[..k] == [b[0]] + b[1..][..i];
    }
  }

  lemma {:induction false} KeepNone(b: seq<Dml>, text: string)
    requires forall y :: y in b ==> !Kept(y, text)
    ensures Keep(b, text) == []
  {
    if b != [] {
      KeepNone(b[1..], text);
    }
  }

  /** Taking a statement out takes it out of what is kept; nothing kept stands before it. */
  lemma KeepWithout(pre: seq<Dml>, x: Dml, post: seq<Dml>, text: string)
    requires Kept(x, text) ==> forall y :: y in pre ==> !Kept(y, text)
    ensures Keep(pre + [x] + post, text) == (if Kept(x, text) then [x] else []) + Keep(pre + post, text)
  {
    KeepConcat(pre + [x], post, text);
    KeepConcat(pre, [x], text);
    KeepConcat(pre, post, text);
    assert Keep([x], text) == (if Kept(x, text) then [x] else []) + Keep([], text);
    if Kept(x, text) {
      KeepNone(pre, text);
    }
  }

  /** Statement lists that agree text by text have the same effect. */
  lemma {:induction false} SameEffect<DB(!new)>(exec: (DB, Dml) -> DB, db: DB, a: seq<Dml>, b: seq<Dml>)
    requires SamePerText(a, b) && InsertsCommute(exec, b)
    ensures RunDmls(exec, db, a) == RunDmls(exec, db, b)
    decreases |a|
  {
    if a == [] {
      NothingKept(b);
    } else {
      var k := Position(a, b);
      var x, pre, post := a[0], b[..k], b[k + 1..];
      assert b == pre + [x] + post;
      forall y | y in pre ensures Commute(exec, y, x) {
        assert y in b && x in b && DifferentTexts(y, x);
      }
      ToFront(exec, db, pre, x);
      RunConcat(exec, db, pre + [x], post);
      RunConcat(exec, exec(db, x), pre, post);
      RestAgrees(a, pre, post);
      SameEffect(exec, exec(db, x), a[1..], pre + post);
    }
  }

  lemma NothingKept(b: seq<Dml>)
    requires SamePerText([], b)
    ensures b == []
  {
    if b != [] {
      var text := if b[0].Insert? then b[0].text else "";
      assert Keep([], text) == Keep(b, text);
    }
  }

  /** The first statement of the one list is in the other behind inserts of other texts only. */
  lemma Position(a: seq<Dml>, b: seq<Dml>) returns (k: nat)
    requires a != [] && SamePerText(a, b)
    ensures k < |b| && b[k] == a[0]
    ensures forall y :: y in b[..k] ==> DifferentTexts(y, a[0])
  {
    var x := a[0];
    var text := if x.Insert? then x.text else if b != [] && b[0].Insert? then b[0].text else "";
    assert Keep(a, text) == Keep(b, text) && Kept(x, text);
    k := FirstKept(b, text);
  }

  lemma RestAgrees(a: seq<Dml>, pre: seq<Dml>, post: seq<Dml>)
    requires a != [] && SamePerText(a, pre + [a[0]] + post)
    requires forall y :: y in pre ==> DifferentTexts(y, a[0])
    ensures SamePerText(a[1..], pre + post)
  {
    var x := a[0];
    forall text: string ensures Keep(a[1..], text) == Keep(pre + post, text) {
      KeepWithout(pre, x, post, text);
      assert Keep(a, text) == Keep(pre + [x] + post, text);
      var head, p, q := if Kept(x, text) then [x] else [], Keep(a[1..], text), Keep(pre + post, text);
      assert head + p == head + q;
      assert (head + p)[|head|..] == p && (head + q)[|head|..] == q;
    }
  }

  /** The effect of a row is that of its statements. */
  ghost predicate AppliesRows<DB(!new)>(apply: (DB, Row) -> DB, exec: (DB, Dml) -> DB, rows: seq<Row>, o: Options)
    requires RowsOk(rows, o)
  {
    forall i, db: DB {:trigger apply(db, rows[i])} :: 0 <= i < |rows| ==>
        apply(db, rows[i]) == RunDmls(exec, db, DmlsOf(rows[i], o))
  }

  lemma {:induction false} UnbatchedRunsRows<DB(!new)>(apply: (DB, Row) -> DB, exec: (DB, Dml) -> DB, db: DB,
                                                       rows: seq<Row>, o: Options)
    requires RowsOk(rows, o) && AppliesRows(apply, exec, rows, o)
    ensures RunDmls(exec, db, Unbatched(rows, o)) == Concurrency.RunRows(apply, db, rows)
    decreases |rows|
  {
    if rows != [] {
      RunConcat(exec, db, DmlsOf(rows[0], o), Unbatched(rows[1..], o));
      var rest := rows[1..];
      forall i, db': DB | 0 <= i < |rest| ensures apply(db', rest[i]) == RunDmls(exec, db', DmlsOf(rest[i], o)) {
        assert rest[i] == rows[i + 1];
      }
      UnbatchedRunsRows(apply, exec, apply(db, rows[0]), rest, o);
    }
  }

  /** So the batch a worker hands over is executed as its rows in order. */
  lemma PreparedRunsRows<DB(!new)>(apply: (DB, Row) -> DB, exec: (DB, Dml) -> DB, db: DB, rows: seq<Row>, o: Options,
                                   plans: seq<Plan>)
    requires RowsOk(rows, o) && AppliesRows(apply, exec, rows, o)
    requires SamePerText(ExpandAll(plans), Unbatched(rows, o)) && InsertsCommute(exec, Unbatched(rows, o))
    ensures RunDmls(exec, db, ExpandAll(plans)) == Concurrency.RunRows(apply, db, rows)
  {
    SameEffect(exec, db, ExpandAll(plans), Unbatched(rows, o));
    UnbatchedRunsRows(apply, exec, db, rows, o);
  }
}
