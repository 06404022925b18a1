/** Placing tables by table count: the target of a new table, the victims of a
    rebalance, and what a rebalance achieves. */
module Balancer {
  import opened SchedulerTypes
  import D = DispatcherSpec

  const RANDOM_PART_SIZE := 256

  type RandomPart = r: nat | r < RANDOM_PART_SIZE

  function Load(tables: map<TableID, TableRecord>, c: CaptureID): nat {
    |D.TablesOn(tables, c)|
  }

  /** The table count shifted left by eight bits, with a random low byte. */
  function Randomize(input: nat, r: RandomPart): nat {
    input * RANDOM_PART_SIZE + r
  }

  function CeilDiv(a: nat, b: nat): nat
    requires b > 0
  {
    (a + b - 1) / b
  }

  method FindTarget(tables: map<TableID, TableRecord>, captures: set<CaptureID>) returns (target: CaptureID, ok: bool)
    ensures ok <==> captures != {}
    ensures ok ==> target in captures
    ensures ok ==> forall c :: c in captures ==> Load(tables, target) <= Load(tables, c)
  {
    if captures == {} {
      return 0, false;
    }
    var workload: map<CaptureID, nat> := map[];
    ghost var draw: map<CaptureID, RandomPart> := map[];
    var todo := captures;
    while todo != {}
      invariant todo <= captures && workload.Keys == draw.Keys == captures - todo
      invariant forall c :: c in workload ==> workload[c] == Randomize(Load(tables, c), draw[c])
    {
      var c :| c in todo;
      var r: RandomPart := *;
      workload := workload[c := Randomize(Load(tables, c), r)];
      draw := draw[c := r];
      todo := todo - {c};
    }
    var minWorkload := -1;
    target := 0;
    todo := workload.Keys;
    while todo != {}
      invariant todo <= captures
      invariant minWorkload == -1 <==> todo == captures
      invariant minWorkload != -1 ==> target in captures && minWorkload == workload[target]
      invariant minWorkload != -1 ==> forall c :: c in captures - todo ==> minWorkload <= workload[c]
    {
      var c :| c in todo;
      if minWorkload == -1 || workload[c] < minWorkload {
        minWorkload := workload[c];
        target := c;
      }
      todo := todo - {c};
    }
    ok := true;
    forall c | c in captures ensures Load(tables, target) <= Load(tables, c) {
      RandomPartBreaksTiesOnly(Load(tables, target), Load(tables, c), draw[target], draw[c]);
    }
  }

  /** The random low byte never overrides a difference in table count. */
  lemma RandomPartBreaksTiesOnly(x: nat, y: nat, r: RandomPart, r': RandomPart)
    ensures x < y ==> Randomize(x, r) < Randomize(y, r')
    ensures Randomize(x, r) <= Randomize(y, r') ==> x <= y
  {
    if x < y {
      assert x + 1 <= y;
    } else if y < x {
      assert y + 1 <= x;
    }
  }

  /** How many tables a capture has above the limit. */
  function Surplus(load: nat, limit: nat): nat {
    if load > limit then load - limit else 0
  }

  /** Just the surplus of the capture is among the victims. */
  ghost predicate Relieved(tables: map<TableID, TableRecord>, victims: set<TableID>, c: CaptureID, limit: nat) {
    |victims * D.TablesOn(tables, c)| == Surplus(Load(tables, c), limit)
  }

  method FindVictims(tables: map<TableID, TableRecord>, captures: set<CaptureID>) returns (victims: set<TableID>)
    ensures victims <= tables.Keys
    ensures captures == {} ==> victims == {}
    ensures captures != {} ==> forall c :: Relieved(tables, victims, c, CeilDiv(|tables|, |captures|))
  {
    victims := {};
    if captures == {} {
      return;
    }
    var limit := CeilDiv(|tables|, |captures|);
    var todo := set t | t in tables :: tables[t].captureID;
    forall c | c !in todo ensures Relieved(tables, victims, c, limit) {
      forall t | t in tables ensures tables[t].captureID in todo {}
      assert D.TablesOn(tables, c) == {};
    }
    while todo != {}
      invariant victims <= tables.Keys
      invariant forall t :: t in victims ==> tables[t].captureID !in todo
      invariant forall c :: c !in todo ==> Relieved(tables, victims, c, limit)
    {
      var c :| c in todo;
      var group := D.TablesOn(tables, c);
      var picked := PickSome(group, Surplus(|group|, limit));
      forall c' | c' !in todo - {c} ensures Relieved(tables, victims + picked, c', limit) {
        GroupAdds(tables, victims, picked, c, c');
        assert c' != c ==> Relieved(tables, victims, c', limit);
      }
      victims := victims + picked;
      todo := todo - {c};
    }
    assert forall c :: Relieved(tables, victims, c, limit);
  }

  lemma GroupAdds(tables: map<TableID, TableRecord>, victims: set<TableID>, picked: set<TableID>, c: CaptureID,
                  c': CaptureID)
    requires victims <= tables.Keys && picked <= D.TablesOn(tables, c)
    requires forall t :: t in victims ==> tables[t].captureID != c
    ensures (victims + picked) * D.TablesOn(tables, c') == if c' == c then picked else victims * D.TablesOn(tables, c')
  {
    var on := D.TablesOn(tables, c');
    forall t | t in victims ensures t in on <==> tables[t].captureID == c' {}
    forall t | t in picked ensures t in on <==> c' == c {}
  }

  lemma Spare(a: set<TableID>, b: set<TableID>) returns (t: TableID)
    requires a <= b && |a| < |b|
    ensures t in b && t !in a
  {
    assert b == a + (b - a);
    assert |b - a| > 0;
    assert b - a != {};
    t :| t in b - a;
  }

  /** Any `n` tables of the group, in whatever order the shuffle gives. */
  method PickSome(group: set<TableID>, n: nat) returns (picked: set<TableID>)
    requires n <= |group|
    ensures picked <= group && |picked| == n
  {
    picked := {};
    var left := n;
    while left > 0
      invariant picked <= group && |picked| == n - left
    {
      ghost var spare := Spare(picked, group);
      var t :| t in group && t !in picked;
      picked := picked + {t};
      left := left - 1;
    }
  }

  // ----- What a rebalance achieves -----

  /** The capture a table goes to: where a manual move takes it, or else one with the fewest tables. */
  ghost predicate Chosen(d: D.Dispatcher, t: TableID, c: CaptureID) {
    if D.MoveReady(d, t) then c == d.jobs[t].target else LeastLoaded(d.tables, d.captures, c)
  }

  ghost predicate LeastLoaded(tables: map<TableID, TableRecord>, captures: set<CaptureID>, c: CaptureID) {
    c in captures && forall c' :: c' in captures ==> Load(tables, c) <= Load(tables, c')
  }

  /** Tables that are to stay on a capture. */
  function Staying(tables: map<TableID, TableRecord>, c: CaptureID): set<TableID> {
    set t | t in tables && tables[t].captureID == c && !tables[t].status.RemovingTable?
  }

  ghost predicate Levelled(tables: map<TableID, TableRecord>, goal: set<TableID>, captures: set<CaptureID>) {
    && captures != {}
    && tables.Keys <= goal
    && (forall t :: t in tables ==> tables[t].captureID in captures)
    && forall c :: c in captures ==> |Staying(tables, c)| <= CeilDiv(|goal|, |captures|)
  }

  function TablesAmong(tables: map<TableID, TableRecord>, captures: set<CaptureID>): set<TableID> {
    set t | t in tables && tables[t].captureID in captures
  }

  /** If every capture has at least `n` tables, there are at least `n` tables per capture. */
  lemma LoadsAddUp(tables: map<TableID, TableRecord>, captures: set<CaptureID>, n: nat)
    requires forall c :: c in captures ==> n <= Load(tables, c)
    ensures n * |captures| <= |TablesAmong(tables, captures)|
    decreases |captures|
  {
    if captures != {} {
      var c :| c in captures;
      LoadsAddUp(tables, captures - {c}, n);
      TablesAmongOneMore(tables, captures, c);
      assert n * |captures| == n * |captures - {c}| + n;
    }
  }

  lemma TablesAmongOneMore(tables: map<TableID, TableRecord>, captures: set<CaptureID>, c: CaptureID)
    requires c in captures
    ensures |TablesAmong(tables, captures)| == |TablesAmong(tables, captures - {c})| + Load(tables, c)
  {
    assert TablesAmong(tables, captures) == TablesAmong(tables, captures - {c}) + D.TablesOn(tables, c);
    assert TablesAmong(tables, captures - {c}) !! D.TablesOn(tables, c);
  }

  lemma CeilDivCovers(a: nat, b: nat)
    requires b > 0
    ensures a <= CeilDiv(a, b) * b
  {
    assert (a + b - 1) / b * b + (a + b - 1) % b == a + b - 1;
  }

  lemma FactorIsLess(x: nat, y: nat, n: nat)
    requires x * n < y * n
    ensures x < y
  {
  }

  /** While a table is missing, the least loaded capture is below the limit. */
  lemma LeastIsBelowLimit(tables: map<TableID, TableRecord>, goal: set<TableID>, captures: set<CaptureID>, t: TableID,
                          target: CaptureID)
    requires Levelled(tables, goal, captures) && t in goal && t !in tables && LeastLoaded(tables, captures, target)
    ensures Load(tables, target) < CeilDiv(|goal|, |captures|)
  {
    var low, limit := Load(tables, target), CeilDiv(|goal|, |captures|);
    LoadsAddUp(tables, captures, low);
    assert TablesAmong(tables, captures) == tables.Keys by {
      forall u | u in tables ensures u in TablesAmong(tables, captures) {}
    }
    SmallerSet(tables.Keys, goal);
    CeilDivCovers(|goal|, |captures|);
    FactorIsLess(low, limit, |captures|);
  }

  lemma SmallerSet(a: set<TableID>, b: set<TableID>)
    requires a < b
    ensures |a| < |b|
  {
    assert b == a + (b - a);
    assert b - a != {};
  }

  /** A missing table placed on a capture with the fewest leaves the captures levelled. */
  lemma PlacingKeepsLevel(tables: map<TableID, TableRecord>, goal: set<TableID>, captures: set<CaptureID>, t: TableID,
                          target: CaptureID)
    requires Levelled(tables, goal, captures) && t in goal && t !in tables && LeastLoaded(tables, captures, target)
    ensures Levelled(tables[t := TableRecord(target, AddingTable)], goal, captures)
  {
    var placed := tables[t := TableRecord(target, AddingTable)];
    LeastIsBelowLimit(tables, goal, captures, t, target);
    forall c | c in captures ensures |Staying(placed, c)| <= CeilDiv(|goal|, |captures|) {
      if c == target {
        OneMoreStays(tables, t, target);
      } else {
        OthersStay(tables, t, target, c);
      }
    }
  }

  lemma OneMoreStays(tables: map<TableID, TableRecord>, t: TableID, target: CaptureID)
    requires t !in tables
    ensures |Staying(tables[t := TableRecord(target, AddingTable)], target)| <= Load(tables, target) + 1
  {
    assert Staying(tables[t := TableRecord(target, AddingTable)], target) == Staying(tables, target) + {t};
    SubsetSize(Staying(tables, target), D.TablesOn(tables, target));
  }

  lemma OthersStay(tables: map<TableID, TableRecord>, t: TableID, target: CaptureID, c: CaptureID)
    requires t !in tables && c != target
    ensures Staying(tables[t := TableRecord(target, AddingTable)], c) == Staying(tables, c)
  {
  }

  /** So does any change after which no table stays where it did not before. */
  lemma FewerStay(tables: map<TableID, TableRecord>, goal: set<TableID>, captures: set<CaptureID>,
                  after: map<TableID, TableRecord>)
    requires Levelled(tables, goal, captures) && after.Keys <= tables.Keys
    requires forall t :: t in after ==>
               && after[t].captureID == tables[t].captureID
               && (tables[t].status.RemovingTable? ==> after[t].status.RemovingTable?)
    ensures Levelled(after, goal, captures)
  {
    forall c | c in captures ensures |Staying(after, c)| <= CeilDiv(|goal|, |captures|) {
      SubsetSize(Staying(after, c), Staying(tables, c));
    }
  }

  lemma SubsetSize(a: set<TableID>, b: set<TableID>)
    requires a <= b
    ensures |a| <= |b|
  {
    assert b == a + (b - a);
  }

  /** A rebalance marks its victims for removal and leaves the other records alone. */
  ghost predicate Marks(tables: map<TableID, TableRecord>, victims: set<TableID>, marked: map<TableID, TableRecord>) {
    && victims <= tables.Keys == marked.Keys
    && forall t :: t in tables ==>
         marked[t] == if t in victims then tables[t].(status := RemovingTable) else tables[t]
  }

  lemma MarkingLevels(tables: map<TableID, TableRecord>, captures: set<CaptureID>, victims: set<TableID>,
                      marked: map<TableID, TableRecord>)
    requires captures != {} && Marks(tables, victims, marked)
    requires forall t :: t in tables ==> tables[t].captureID in captures && tables[t].status.RunningTable?
    requires forall c :: Relieved(tables, victims, c, CeilDiv(|tables|, |captures|))
    ensures Levelled(marked, tables.Keys, captures)
  {
    forall c | c in captures ensures |Staying(marked, c)| <= CeilDiv(|tables|, |captures|) {
      assert Relieved(tables, victims, c, CeilDiv(|tables|, |captures|));
      MarkingLeaves(tables, victims, marked, c);
    }
  }

  lemma MarkingLeaves(tables: map<TableID, TableRecord>, victims: set<TableID>, marked: map<TableID, TableRecord>,
                      c: CaptureID)
    requires Marks(tables, victims, marked)
    requires forall t :: t in tables ==> tables[t].status.RunningTable?
    ensures |Staying(marked, c)| == Load(tables, c) - |victims * D.TablesOn(tables, c)|
  {
    var on, stay := D.TablesOn(tables, c), Staying(marked, c);
    var gone := victims * on;
    assert stay == on - gone by {
      forall t ensures t in stay <==> t in on && t !in gone {}
    }
    assert on == stay + gone && stay !! gone;
  }

  lemma NothingLeaving(tables: map<TableID, TableRecord>, goal: set<TableID>, captures: set<CaptureID>)
    requires Levelled(tables, goal, captures)
    requires forall t :: t in tables ==> !tables[t].status.RemovingTable?
    ensures forall c :: c in captures ==> Load(tables, c) <= CeilDiv(|goal|, |captures|)
  {
    forall c | c in captures ensures Load(tables, c) <= CeilDiv(|goal|, |captures|) {
      assert D.TablesOn(tables, c) == Staying(tables, c);
    }
  }
}
