/** Who may take office: exactly the captures that `SchedulerProtocol.Clear` lets in. If any other
    does, there is a run after which two captures hold a table or the owner panics. */
module SchedulerOffice {
  import opened SchedulerTypes
  import opened SchedulerProtocol
  import opened SchedulerKnowing
  import D = DispatcherSpec
  import A = AgentSpec
  import T = TermProtocol

  // ----- Runs put together -----

  ghost predicate Leads(s: System, es: seq<Event>, s': System) {
    Clean(s, es) && After(s, es) == Done(s')
  }

  lemma {:induction false} LeadsOn(s: System, es: seq<Event>, m: System, fs: seq<Event>, s': System)
    requires Leads(s, es, m) && Leads(m, fs, s')
    ensures Leads(s, es + fs, s')
    decreases |es|
  {
    if es == [] {
      assert es + fs == fs;
    } else {
      LeadsOn(Step(s, es[0]), es[1..], m, fs, s');
      assert (es + fs)[1..] == es[1..] + fs;
    }
  }

  lemma LeadsThen(s: System, es: seq<Event>, m: System, e: Event)
    requires Leads(s, es, m) && Allowed(m, e)
    ensures Leads(s, es + [e], Step(m, e))
  {
    assert [e][1..] == [] && After(Step(m, e), []) == Done(Step(m, e));
    assert After(m, [e]) == After(Step(m, e), [e][1..]);
    assert Leads(m, [e], Step(m, e));
    LeadsOn(s, es, m, [e], Step(m, e));
  }

  lemma {:induction false} AllDown(s: System, cs: set<CaptureID>) returns (es: seq<Event>)
    ensures Leads(s, es, s.(down := s.down + cs))
    decreases |cs|
  {
    if cs == {} {
      es := [];
      assert s.down + cs == s.down;
    } else {
      var c :| c in cs;
      var rest := AllDown(s, cs - {c});
      es := rest + [CaptureDown(c)];
      LeadsThen(s, rest, s.(down := s.down + (cs - {c})), CaptureDown(c));
      assert s.down + (cs - {c}) + {c} == s.down + cs;
    }
  }

  // ----- A term with two captures -----

  /** The owner knows two captures, at the given standing, and the given tables. */
  ghost predicate Scene(s: System, x: CaptureID, y: CaptureID, sx: D.SyncStatus, sy: D.SyncStatus,
                        tables: map<TableID, TableRecord>) {
    && x != y && x !in s.dropped && y !in s.dropped && s.rev > 0 && s.dropped <= s.down
    && s.owner.captures == {x, y} == s.owner.status.Keys && s.owner.tables == tables
    && s.owner.status[x].sync == sx && s.owner.status[y].sync == sy
  }

  /** The term is the same, and no table is moved by hand that was not. */
  ghost predicate SameTerm(s: System, s': System) {
    s'.rev == s.rev && s'.holders == s.holders && s'.owner.jobs == s.owner.jobs
  }

  function Announced(n: Node, rev: nat): Node {
    n.(inbox := n.inbox[rev := [Announce]])
  }

  lemma Listing(s: System, x: CaptureID, y: CaptureID) returns (es: seq<Event>, s': System)
    requires x != y && s.rev > 0 && s.owner == D.INIT && x !in s.dropped && y !in s.dropped && s.dropped <= s.down
    ensures Leads(s, es, s') && SameTerm(s, s') && s'.nodes == s.nodes
    ensures Scene(s', x, y, D.Uninitialized, D.Uninitialized, map[])
  {
    var others := s.contacted - {x, y};
    var es1 := AllDown(s, others);
    var s1 := s.(down := s.down + others);
    var e := OwnerActs(D.Refresh({x, y}, 0));
    LeadsThen(s, es1, s1, e);
    es, s' := es1 + [e], Step(s1, e);
    D.ListedIsRefresh(s1.owner, {x, y}, 0, s'.owner);
  }

  lemma Announcing(s: System, x: CaptureID, y: CaptureID) returns (es: seq<Event>, s': System)
    requires Scene(s, x, y, D.Uninitialized, D.Uninitialized, map[])
    requires T.Chan(NodeOf(s, x).inbox, s.rev) == [] && T.Chan(NodeOf(s, y).inbox, s.rev) == []
    ensures Leads(s, es, s') && SameTerm(s, s') && Scene(s', x, y, D.SyncSent, D.SyncSent, map[])
    ensures NodeOf(s', x) == Announced(NodeOf(s, x), s.rev) && NodeOf(s', y) == Announced(NodeOf(s, y), s.rev)
  {
    var e, f := OwnerActs(D.SendAnnounce(x)), OwnerActs(D.SendAnnounce(y));
    var empty: seq<OwnerMsg> := [];
    assert empty + [Announce] == [Announce];
    var s1 := Step(s, e);
    assert Leads(s, [], s);
    LeadsThen(s, [], s, e);
    LeadsThen(s, [] + [e], s1, f);
    es, s' := [] + [e] + [f], Step(s1, f);
  }

  lemma Opening(s: System, x: CaptureID, y: CaptureID) returns (es: seq<Event>, s': System)
    requires x != y && s.rev > 0 && s.owner == D.INIT && x !in s.dropped && y !in s.dropped && s.dropped <= s.down
    requires T.Chan(NodeOf(s, x).inbox, s.rev) == [] && T.Chan(NodeOf(s, y).inbox, s.rev) == []
    ensures Leads(s, es, s') && SameTerm(s, s') && Scene(s', x, y, D.SyncSent, D.SyncSent, map[])
    ensures NodeOf(s', x) == Announced(NodeOf(s, x), s.rev) && NodeOf(s', y) == Announced(NodeOf(s, y), s.rev)
  {
    var es1, s1 := Listing(s, x, y);
    var es2, s2 := Announcing(s1, x, y);
    LeadsOn(s, es1, s1, es2, s2);
    es, s' := es1 + es2, s2;
  }

  // ----- A capture that has nothing -----

  function Idle(rev: nat): A.Agent {
    A.Agent(rev, false, rev, false, [], map[], {})
  }

  /** The owner takes the Sync of a capture that has nothing. */
  lemma TakingAnswer(s: System, x: CaptureID, y: CaptureID)
    requires Scene(s, x, y, D.SyncSent, D.SyncSent, map[]) && BoxOf(s, y) == [A.Report(s.rev, Sync({}, {}, {}))]
    ensures Enabled(s, DeliverToOwner(y))
    ensures var s' := Step(s, DeliverToOwner(y));
            && SameTerm(s, s') && Scene(s', x, y, D.SyncSent, D.SyncFinished, map[]) && NodeOf(s', x) == NodeOf(s, x)
            && NodeOf(s', y) == NodeOf(s, y).(outbox := NodeOf(s, y).outbox[HolderOf(s, s.rev) := []])
  {
    assert BoxOf(s, y)[1..] == [];
    assert D.SyncRecords(y, {}, {}, {}) == map[];
    assert Step(s, DeliverToOwner(y)).owner.tables == map[];
  }

  /** It answers the Announce, and the owner counts it as synced. */
  lemma Answering(s: System, x: CaptureID, y: CaptureID) returns (es: seq<Event>, s': System)
    requires Scene(s, x, y, D.SyncSent, D.SyncSent, map[]) && NodeOf(s, y) == Announced(INIT_NODE, s.rev)
    ensures Leads(s, es, s') && SameTerm(s, s') && Scene(s', x, y, D.SyncSent, D.SyncFinished, map[])
    ensures NodeOf(s', x) == NodeOf(s, x)
    ensures NodeOf(s', y) == Node(Idle(s.rev), map[s.rev := []], map[HolderOf(s, s.rev) := []])
  {
    var h := HolderOf(s, s.rev);
    var e1, e2, e3 := DeliverToAgent(y, s.rev), AgentActs(y, A.SendSync), DeliverToOwner(y);
    assert [Announce][1..] == [];
    var s1 := Step(s, e1);
    assert NodeOf(s1, y) == Node(A.Agent(s.rev, true, 0, true, [], map[], {}), map[s.rev := []], map[]);
    var s2 := Step(s1, e2);
    var none := Sync({}, {}, {});
    assert A.SyncOf(NodeOf(s1, y).agent) == none;
    assert NodeOf(s2, y).outbox == map[][h := [] + [A.Report(s.rev, none)]];
    assert BoxOf(s2, y) == [A.Report(s.rev, none)];
    TakingAnswer(s2, x, y);
    var s3 := Step(s2, e3);
    assert Leads(s, [], s);
    LeadsThen(s, [], s, e1);
    LeadsThen(s, [] + [e1], s1, e2);
    LeadsThen(s, [] + [e1] + [e2], s2, e3);
    es, s' := [] + [e1] + [e2] + [e3], s3;
  }

  // ----- A Sync that answers no Announce of this term -----

  ghost predicate AllOn(tables: map<TableID, TableRecord>, d: CaptureID) {
    forall t :: t in tables ==> tables[t].captureID == d
  }

  /** The owner has both captures down as synced, and all tables with one of them. */
  ghost predicate Believed(s: System, d: CaptureID, e: CaptureID) {
    Scene(s, d, e, D.SyncFinished, D.SyncFinished, s.owner.tables) && AllOn(s.owner.tables, d)
  }

  /** Only the channel to the owner and the owner's state have changed. */
  ghost predicate OnlyReported(s: System, s': System, d: CaptureID, e: CaptureID) {
    && SameTerm(s, s') && NodeOf(s', e) == NodeOf(s, e)
    && NodeOf(s', d) == NodeOf(s, d).(outbox := NodeOf(s', d).outbox)
  }

  /** The report is delivered. */
  lemma Delivery(s: System, d: CaptureID, e: CaptureID) returns (s': System)
    requires d != e && BoxOf(s, d) != [] && D.OnMessage(s.owner, d, BoxOf(s, d)[0].msg).Done?
    ensures Leads(s, [DeliverToOwner(d)], s') && OnlyReported(s, s', d, e)
    ensures BoxOf(s', d) == BoxOf(s, d)[1..] && s'.owner == D.OnMessage(s.owner, d, BoxOf(s, d)[0].msg).value
    ensures s'.dropped == s.dropped && s'.down == s.down && s'.contacted == s.contacted
  {
    s' := Step(s, DeliverToOwner(d));
    assert Leads(s, [], s);
    LeadsThen(s, [], s, DeliverToOwner(d));
    assert [] + [DeliverToOwner(d)] == [DeliverToOwner(d)];
  }

  lemma SyncBelieved(s: System, d: CaptureID, e: CaptureID, sd: D.SyncStatus, s': System)
    requires Scene(s, d, e, sd, D.SyncFinished, s.owner.tables) && AllOn(s.owner.tables, d) && BoxOf(s, d) != []
    requires sd == D.SyncSent || sd == D.SyncFinished
    requires BoxOf(s, d)[0].msg.Sync? && D.OnMessage(s.owner, d, BoxOf(s, d)[0].msg).Done?
    requires s'.owner == D.OnMessage(s.owner, d, BoxOf(s, d)[0].msg).value && s'.rev == s.rev
    requires s'.dropped == s.dropped && s'.down == s.down
    ensures Believed(s', d, e)
    ensures var m := BoxOf(s, d)[0].msg; s'.owner.tables.Keys == m.running + m.adding + m.removing
  {
    assert D.WithoutCapture(s.owner.tables, d) == map[];
  }

  /** Reports before the first Sync are ignored; the Sync is believed, or the owner panics. */
  lemma {:induction false} ToFirstSync(s: System, d: CaptureID, e: CaptureID, k: nat)
    returns (es: seq<Event>, s': System)
    requires Scene(s, d, e, D.SyncSent, D.SyncFinished, map[]) && k < |BoxOf(s, d)| && BoxOf(s, d)[k].msg.Sync?
    requires forall i :: 0 <= i < k ==> BoxOf(s, d)[i].msg.Finish?
    ensures Leads(s, es, s') && OnlyReported(s, s', d, e)
    ensures !NoPanic(s') || Believed(s', d, e)
    decreases k
  {
    if k == 0 && !D.OnMessage(s.owner, d, BoxOf(s, d)[0].msg).Done? {
      es, s' := [], s;
    } else {
      var s1 := Delivery(s, d, e);
      if k == 0 {
        SyncBelieved(s, d, e, D.SyncSent, s1);
        es, s' := [DeliverToOwner(d)], s1;
      } else {
        assert forall i :: 0 <= i < |BoxOf(s1, d)| ==> BoxOf(s1, d)[i] == BoxOf(s, d)[i + 1];
        var es1, s2 := ToFirstSync(s1, d, e, k - 1);
        LeadsOn(s, [DeliverToOwner(d)], s1, es1, s2);
        es, s' := [DeliverToOwner(d)] + es1, s2;
      }
    }
  }

  lemma FinishBelieved(s: System, d: CaptureID, e: CaptureID, s': System)
    requires Believed(s, d, e) && BoxOf(s, d) != [] && BoxOf(s, d)[0].msg.Finish?
    requires D.OnMessage(s.owner, d, BoxOf(s, d)[0].msg).Done?
    requires s'.owner == D.OnMessage(s.owner, d, BoxOf(s, d)[0].msg).value && s'.rev == s.rev
    requires s'.dropped == s.dropped && s'.down == s.down
    ensures Believed(s', d, e)
  {
  }

  /** All reports are delivered, unless the owner panics; what counts is the Sync that is last. */
  lemma {:induction false} ToLastSync(s: System, d: CaptureID, e: CaptureID, t: TableID)
    returns (es: seq<Event>, s': System)
    requires Believed(s, d, e) && BoxOf(s, d) != []
    requires var m := BoxOf(s, d)[|BoxOf(s, d)| - 1].msg; m.Sync? && t !in m.running + m.adding + m.removing
    ensures Leads(s, es, s') && OnlyReported(s, s', d, e)
    ensures !NoPanic(s') || (Believed(s', d, e) && t !in s'.owner.tables)
    decreases |BoxOf(s, d)|
  {
    if !D.OnMessage(s.owner, d, BoxOf(s, d)[0].msg).Done? {
      es, s' := [], s;
    } else {
      var s1 := Delivery(s, d, e);
      if BoxOf(s, d)[0].msg.Sync? { SyncBelieved(s, d, e, D.SyncFinished, s1); } else { FinishBelieved(s, d, e, s1); }
      if |BoxOf(s, d)| == 1 {
        es, s' := [DeliverToOwner(d)], s1;
      } else {
        var es1, s2 := ToLastSync(s1, d, e, t);
        LeadsOn(s, [DeliverToOwner(d)], s1, es1, s2);
        es, s' := [DeliverToOwner(d)] + es1, s2;
      }
    }
  }

  // ----- What follows from it -----

  /** Sends an operation to one of the captures. */
  lemma Ordering(s: System, d: CaptureID, e: CaptureID, t: TableID, x: CaptureID) returns (s': System)
    requires Believed(s, d, e) && t !in s.owner.tables && t !in s.owner.jobs && (x == d || x == e)
    ensures Leads(s, [OwnerActs(D.DispatchAdd(t, x))], s') && SameTerm(s, s')
    ensures Scene(s', d, e, D.SyncFinished, D.SyncFinished, s.owner.tables[t := TableRecord(x, AddingTable)])
    ensures var n := NodeOf(s, x);
            NodeOf(s', x) == n.(inbox := n.inbox[s.rev := T.Chan(n.inbox, s.rev) + [Dispatch(Op(t, false))]])
    ensures forall c :: c != x ==> NodeOf(s', c) == NodeOf(s, c)
  {
    var ev := OwnerActs(D.DispatchAdd(t, x));
    s' := Step(s, ev);
    assert Leads(s, [], s);
    LeadsThen(s, [], s, ev);
    assert [] + [ev] == [ev];
  }

  /** An agent hears a message. */
  lemma Hearing(s: System, x: CaptureID) returns (s': System)
    requires T.Chan(NodeOf(s, x).inbox, s.rev) != []
    ensures Leads(s, [DeliverToAgent(x, s.rev)], s') && s' == s.(nodes := s'.nodes)
    ensures var n := NodeOf(s, x);
            var box := T.Chan(n.inbox, s.rev);
            NodeOf(s', x) == n.(agent := A.OnOwnerMsg(n.agent, s.rev, box[0]), inbox := n.inbox[s.rev := box[1..]])
    ensures forall c :: c != x ==> NodeOf(s', c) == NodeOf(s, c)
  {
    var ev := DeliverToAgent(x, s.rev);
    s' := Step(s, ev);
    assert Leads(s, [], s);
    LeadsThen(s, [], s, ev);
    assert [] + [ev] == [ev];
  }

  /** An agent acts. */
  lemma Acting(s: System, x: CaptureID, act: A.AgentAction) returns (s': System)
    requires A.Enabled(NodeOf(s, x).agent, act) && Discreet(s, AgentActs(x, act))
    ensures Leads(s, [AgentActs(x, act)], s') && s' == s.(nodes := s'.nodes)
    ensures var n := NodeOf(s, x);
            NodeOf(s', x) == Reported(s, n, A.Sends(n.agent, act)).(agent := A.Step(n.agent, act))
    ensures forall c :: c != x ==> NodeOf(s', c) == NodeOf(s, c)
  {
    var ev := AgentActs(x, act);
    s' := Step(s, ev);
    assert Leads(s, [], s);
    LeadsThen(s, [], s, ev);
    assert [] + [ev] == [ev];
  }

  /** An agent takes up its only pending operation and adds the table. */
  lemma TakingUp(s: System, x: CaptureID, t: TableID) returns (es: seq<Event>, s': System)
    requires NodeOf(s, x).agent.pending == [Op(t, false)] && t !in NodeOf(s, x).agent.ops
    ensures Leads(s, es, s') && s' == s.(nodes := s'.nodes) && t in NodeOf(s', x).agent.exec
    ensures NodeOf(s, x).agent.exec <= NodeOf(s', x).agent.exec
    ensures NodeOf(s', x).outbox == NodeOf(s, x).outbox && NodeOf(s', x).inbox == NodeOf(s, x).inbox
    ensures forall c :: c != x ==> NodeOf(s', c) == NodeOf(s, c)
  {
    var a := NodeOf(s, x).agent;
    assert A.Taken(a.pending[..0]) == map[];
    assert A.Taken(a.pending) == map[t := A.AgentOp(false, A.Received)];
    var s1 := Acting(s, x, A.TakePending);
    var s2 := Acting(s1, x, A.Add(t));
    LeadsOn(s, [AgentActs(x, A.TakePending)], s1, [AgentActs(x, A.Add(t))], s2);
    es, s' := [AgentActs(x, A.TakePending)] + [AgentActs(x, A.Add(t))], s2;
  }

  /** The agent is in this term at most, and if so it has nothing pending and sends to its owner. */
  ghost predicate Behind(a: A.Agent, rev: nat) {
    a.ownerRev <= rev && (a.ownerRev == rev ==> a.pending == [] && A.Target(a) == rev)
  }

  /** Hears the Announce and then the order to add a table. */
  lemma HearingBoth(s: System, d: CaptureID, t: TableID) returns (es: seq<Event>, s': System)
    requires T.Chan(NodeOf(s, d).inbox, s.rev) == [Announce] + [Dispatch(Op(t, false))]
    requires Behind(NodeOf(s, d).agent, s.rev)
    ensures Leads(s, es, s') && s' == s.(nodes := s'.nodes)
    ensures var a, a' := NodeOf(s, d).agent, NodeOf(s', d).agent;
            && a'.ownerRev == s.rev && A.Target(a') == s.rev && a'.needSync && a'.pending == [Op(t, false)]
            && a'.ops == a.ops && a'.exec == a.exec && NodeOf(s', d).outbox == NodeOf(s, d).outbox
    ensures forall c :: c != d ==> NodeOf(s', c) == NodeOf(s, c)
  {
    var e := DeliverToAgent(d, s.rev);
    var s1 := Hearing(s, d);
    var s2 := Hearing(s1, d);
    var none: seq<Op> := [];
    assert none + [Op(t, false)] == [Op(t, false)];
    LeadsOn(s, [e], s1, [e], s2);
    es, s' := [e] + [e], s2;
  }

  /** Its Sync leaves the table out; then it adds the table. */
  lemma SyncingThenAdding(s: System, d: CaptureID, t: TableID) returns (es: seq<Event>, s': System)
    requires s.rev > 0
    requires var a := NodeOf(s, d).agent;
             && A.Target(a) == s.rev == a.ownerRev && a.needSync && a.pending == [Op(t, false)]
             && t !in a.ops && t !in a.exec
    ensures Leads(s, es, s') && s' == s.(nodes := s'.nodes) && t in NodeOf(s', d).agent.exec
    ensures forall c :: c != d ==> NodeOf(s', c) == NodeOf(s, c)
    ensures BoxOf(s', d) == BoxOf(s, d) + [A.Report(s.rev, A.SyncOf(NodeOf(s, d).agent))]
  {
    var s1 := Acting(s, d, A.SendSync);
    var es1, s2 := TakingUp(s1, d, t);
    LeadsOn(s, [AgentActs(d, A.SendSync)], s1, es1, s2);
    es, s' := [AgentActs(d, A.SendSync)] + es1, s2;
  }

  /** The owner has the table added by a capture whose Sync is still to come. */
  lemma Misleading(s: System, d: CaptureID, e: CaptureID, t: TableID) returns (es: seq<Event>, s': System)
    requires Believed(s, d, e) && t !in s.owner.tables && t !in s.owner.jobs
    requires T.Chan(NodeOf(s, d).inbox, s.rev) == [Announce]
    requires var a := NodeOf(s, d).agent; Behind(a, s.rev) && t !in a.ops && t !in a.exec
    ensures Leads(s, es, s') && SameTerm(s, s') && Believed(s', d, e) && NodeOf(s', e) == NodeOf(s, e)
    ensures t in NodeOf(s', d).agent.exec && BoxOf(s', d) != []
    ensures var m := BoxOf(s', d)[|BoxOf(s', d)| - 1].msg; m.Sync? && t !in m.running + m.adding + m.removing
  {
    var s1 := Ordering(s, d, e, t, d);
    var es2, s2 := HearingBoth(s1, d, t);
    var es3, s3 := SyncingThenAdding(s2, d, t);
    LeadsOn(s, [OwnerActs(D.DispatchAdd(t, d))], s1, es2, s2);
    LeadsOn(s, [OwnerActs(D.DispatchAdd(t, d))] + es2, s2, es3, s3);
    es, s' := [OwnerActs(D.DispatchAdd(t, d))] + es2 + es3, s3;
  }

  /** Then it has the other capture add it too. */
  lemma Doubling(s: System, d: CaptureID, e: CaptureID, t: TableID) returns (es: seq<Event>, s': System)
    requires Believed(s, d, e) && t !in s.owner.tables && t !in s.owner.jobs && t in NodeOf(s, d).agent.exec
    requires NodeOf(s, e).agent == Idle(s.rev) && T.Chan(NodeOf(s, e).inbox, s.rev) == []
    ensures Leads(s, es, s') && !Safe(s')
  {
    var s1 := Ordering(s, d, e, t, e);
    var s2 := Hearing(s1, e);
    var none: seq<Op> := [];
    assert none + [Op(t, false)] == [Op(t, false)];
    var es3, s3 := TakingUp(s2, e, t);
    LeadsOn(s, [OwnerActs(D.DispatchAdd(t, e))], s1, [DeliverToAgent(e, s.rev)], s2);
    LeadsOn(s, [OwnerActs(D.DispatchAdd(t, e))] + [DeliverToAgent(e, s.rev)], s2, es3, s3);
    es, s' := [OwnerActs(D.DispatchAdd(t, e))] + [DeliverToAgent(e, s.rev)] + es3, s3;
    assert t in NodeOf(s', d).agent.exec && t in NodeOf(s', e).agent.exec && d !in s'.dropped && e !in s'.dropped;
  }

  lemma {:induction false} SomeOther(s: set<nat>) returns (m: nat)
    ensures forall x :: x in s ==> x < m
    decreases |s|
  {
    if s == {} {
      m := 0;
    } else {
      var x :| x in s;
      var m' := SomeOther(s - {x});
      m := if x < m' then m' else x + 1;
      forall y | y in s ensures y < m {
        assert y == x || y in s - {x};
      }
    }
  }

  lemma {:induction false} FirstSync(box: seq<A.Report>, i: nat) returns (k: nat)
    requires i < |box| && box[i].msg.Sync?
    ensures k <= i && box[k].msg.Sync? && forall j :: 0 <= j < k ==> box[j].msg.Finish?
  {
    if box[0].msg.Sync? {
      k := 0;
    } else {
      var k' := FirstSync(box[1..], i - 1);
      k := k' + 1;
      forall j | 0 <= j < k ensures box[j].msg.Finish? {
        assert j == 0 || box[j] == box[1..][j - 1];
      }
    }
  }

  /** A new term in which a Sync of an agent not yet heard in it is on its way. */
  ghost predicate Early(s: System, d: CaptureID, i: nat) {
    && s.rev > 0 && s.owner == D.INIT && d !in s.dropped && s.dropped <= s.down
    && T.Chan(NodeOf(s, d).inbox, s.rev) == [] && Behind(NodeOf(s, d).agent, s.rev)
    && i < |BoxOf(s, d)| && BoxOf(s, d)[i].msg.Sync?
  }

  lemma BelievedIsUnsafe(s: System, d: CaptureID, e: CaptureID) returns (es: seq<Event>, s': System)
    requires Believed(s, d, e) && T.Chan(NodeOf(s, d).inbox, s.rev) == [Announce] && Behind(NodeOf(s, d).agent, s.rev)
    requires NodeOf(s, e).agent == Idle(s.rev) && T.Chan(NodeOf(s, e).inbox, s.rev) == []
    ensures Leads(s, es, s') && !Good(s')
  {
    var a := NodeOf(s, d).agent;
    var t := SomeOther(s.owner.tables.Keys + s.owner.jobs.Keys + a.exec + a.ops.Keys);
    var es1, s1 := Misleading(s, d, e, t);
    var es2, s2 := ToLastSync(s1, d, e, t);
    LeadsOn(s, es1, s1, es2, s2);
    if !NoPanic(s2) {
      es, s' := es1 + es2, s2;
    } else {
      var es3, s3 := Doubling(s2, d, e, t);
      LeadsOn(s, es1 + es2, s2, es3, s3);
      es, s' := es1 + es2 + es3, s3;
    }
  }

  /** Two captures have been announced to, one of which has nothing, and an early Sync of the other
      is on its way. */
  lemma OpenedIsUnsafe(s: System, d: CaptureID, e: CaptureID, i: nat) returns (es: seq<Event>, s': System)
    requires Scene(s, d, e, D.SyncSent, D.SyncSent, map[]) && NodeOf(s, e) == Announced(INIT_NODE, s.rev)
    requires T.Chan(NodeOf(s, d).inbox, s.rev) == [Announce] && Behind(NodeOf(s, d).agent, s.rev)
    requires i < |BoxOf(s, d)| && BoxOf(s, d)[i].msg.Sync?
    ensures Leads(s, es, s') && !Good(s')
  {
    var es1, s1 := Answering(s, d, e);
    assert BoxOf(s1, d) == BoxOf(s, d);
    var k := FirstSync(BoxOf(s, d), i);
    var es2, s2 := ToFirstSync(s1, d, e, k);
    LeadsOn(s, es1, s1, es2, s2);
    if !NoPanic(s2) {
      es, s' := es1 + es2, s2;
    } else {
      var es3, s3 := BelievedIsUnsafe(s2, d, e);
      LeadsOn(s, es1 + es2, s2, es3, s3);
      es, s' := es1 + es2 + es3, s3;
    }
  }

  /** That Sync makes the owner panic or lets two captures get the same table. */
  lemma EarlySyncIsUnsafe(s: System, d: CaptureID, i: nat) returns (es: seq<Event>, s': System)
    requires Early(s, d, i)
    ensures Leads(s, es, s') && !Good(s')
  {
    var e := SomeOther(s.nodes.Keys + s.dropped + {d});
    var es1, s1 := Opening(s, d, e);
    assert BoxOf(s1, d) == BoxOf(s, d);
    var es2, s2 := OpenedIsUnsafe(s1, d, e, i);
    LeadsOn(s, es1, s1, es2, s2);
    es, s' := es1 + es2, s2;
  }

  // ----- A late report on a table of another capture -----

  /** Everything in the agent's queue is on its way to be taken up. */
  function QueueOf(n: Node): seq<Op> {
    n.agent.pending + T.OpsOf(T.Chan(n.inbox, n.agent.ownerRev))
  }

  /** An agent still hears the operations of the term it follows, and takes them up. */
  lemma {:induction false} TakingAll(s: System, y: CaptureID, t: TableID) returns (es: seq<Event>, s': System)
    requires T.Queued(QueueOf(NodeOf(s, y)), t) && A.NoDuplicates(QueueOf(NodeOf(s, y)), NodeOf(s, y).agent.ops)
    requires Announce !in T.Chan(NodeOf(s, y).inbox, NodeOf(s, y).agent.ownerRev)
    ensures Leads(s, es, s') && s' == s.(nodes := s'.nodes) && t in NodeOf(s', y).agent.ops
    ensures NodeOf(s', y).outbox == NodeOf(s, y).outbox && NodeOf(s', y).agent.ownerRev == NodeOf(s, y).agent.ownerRev
    ensures forall r :: r != NodeOf(s, y).agent.ownerRev ==>
              T.Chan(NodeOf(s', y).inbox, r) == T.Chan(NodeOf(s, y).inbox, r)
    ensures forall c :: c != y ==> NodeOf(s', c) == NodeOf(s, c)
    decreases |T.Chan(NodeOf(s, y).inbox, NodeOf(s, y).agent.ownerRev)|
  {
    var n := NodeOf(s, y);
    var box := T.Chan(n.inbox, n.agent.ownerRev);
    if box == [] {
      assert QueueOf(n) == n.agent.pending;
      A.TakenKeys(n.agent.pending);
      s' := Acting(s, y, A.TakePending);
      es := [AgentActs(y, A.TakePending)];
    } else {
      var e := DeliverToAgent(y, n.agent.ownerRev);
      var s1 := Step(s, e);
      assert Leads(s, [], s);
      LeadsThen(s, [], s, e);
      assert [] + [e] == [e];
      assert box[0].Dispatch? && forall m :: m in box[1..] ==> m in box;
      assert NodeOf(s1, y).agent == n.agent.(pending := n.agent.pending + [box[0].op]);
      assert n.agent.pending + T.OpsOf(box) == n.agent.pending + [box[0].op] + T.OpsOf(box[1..]);
      assert QueueOf(NodeOf(s1, y)) == QueueOf(n);
      var es1, s2 := TakingAll(s1, y, t);
      LeadsOn(s, [e], s1, es1, s2);
      es, s' := [e] + es1, s2;
    }
  }

  ghost predicate OnlyFinishes(box: seq<A.Report>) {
    forall i :: 0 <= i < |box| ==> box[i].msg.Finish?
  }

  /** Reports before the Sync are ignored, and the Sync is recorded. */
  lemma {:induction false} Recording(s: System, x: CaptureID, y: CaptureID, late: seq<A.Report>, m: A.Report)
    returns (es: seq<Event>, s': System)
    requires Scene(s, x, y, D.SyncSent, D.SyncSent, map[]) && BoxOf(s, y) == late + [m] && OnlyFinishes(late)
    requires m.msg.Sync? && D.PairwiseDisjoint(m.msg.running, m.msg.adding, m.msg.removing)
    ensures Leads(s, es, s') && SameTerm(s, s') && NodeOf(s', x) == NodeOf(s, x)
    ensures s'.owner.captures == {x, y} && AllOn(s'.owner.tables, y)
    ensures s'.owner.tables.Keys == m.msg.running + m.msg.adding + m.msg.removing
    decreases |late|
  {
    var s1 := Delivery(s, y, x);
    if late == [] {
      assert BoxOf(s, y)[0] == m;
      es, s' := [DeliverToOwner(y)], s1;
    } else {
      assert BoxOf(s, y)[0] == late[0] && BoxOf(s1, y) == late[1..] + [m];
      var es1, s2 := Recording(s1, x, y, late[1..], m);
      LeadsOn(s, [DeliverToOwner(y)], s1, es1, s2);
      es, s' := [DeliverToOwner(y)] + es1, s2;
    }
  }

  /** The capture answers the Announce, late reports first. */
  lemma Naming(s: System, x: CaptureID, y: CaptureID, t: TableID) returns (es: seq<Event>, s': System)
    requires Scene(s, x, y, D.SyncSent, D.SyncSent, map[]) && OnlyFinishes(BoxOf(s, y))
    requires T.Chan(NodeOf(s, y).inbox, s.rev) == [Announce] && NodeOf(s, y).agent.ownerRev < s.rev
    requires t in NodeOf(s, y).agent.exec || t in NodeOf(s, y).agent.ops
    ensures Leads(s, es, s') && SameTerm(s, s') && NodeOf(s', x) == NodeOf(s, x)
    ensures s'.owner.captures == {x, y} && AllOn(s'.owner.tables, y) && t in s'.owner.tables
  {
    var s1 := Hearing(s, y);
    var s2 := Acting(s1, y, A.SendSync);
    var m := A.Report(s.rev, A.SyncOf(NodeOf(s1, y).agent));
    assert BoxOf(s2, y) == BoxOf(s, y) + [m];
    var es3, s3 := Recording(s2, x, y, BoxOf(s, y), m);
    LeadsOn(s, [DeliverToAgent(y, s.rev)], s1, [AgentActs(y, A.SendSync)], s2);
    LeadsOn(s, [DeliverToAgent(y, s.rev)] + [AgentActs(y, A.SendSync)], s2, es3, s3);
    es, s' := [DeliverToAgent(y, s.rev)] + [AgentActs(y, A.SendSync)] + es3, s3;
  }

  /** Sooner or later the owner panics on a report of one capture on a table of the other. */
  lemma {:induction false} Clashing(s: System, x: CaptureID, y: CaptureID, i: nat) returns (es: seq<Event>, s': System)
    requires x != y && s.owner.captures == {x, y} && AllOn(s.owner.tables, y) && OnlyFinishes(BoxOf(s, x))
    requires i < |BoxOf(s, x)| && BoxOf(s, x)[i].msg.tableID in s.owner.tables
    ensures Leads(s, es, s') && !NoPanic(s')
    decreases i
  {
    if BoxOf(s, x)[0].msg.tableID in s.owner.tables {
      es, s' := [], s;
    } else {
      var s1 := Delivery(s, x, y);
      assert forall k :: 0 <= k < |BoxOf(s1, x)| ==> BoxOf(s1, x)[k] == BoxOf(s, x)[k + 1];
      var es1, s2 := Clashing(s1, x, y, i - 1);
      LeadsOn(s, [DeliverToOwner(x)], s1, es1, s2);
      es, s' := [DeliverToOwner(x)] + es1, s2;
    }
  }

  /** Both captures are yet to be heard in the new term, and none owes it a Sync. */
  ghost predicate Waiting(s: System, x: CaptureID, y: CaptureID) {
    && x != y && s.rev > 0 && s.owner == D.INIT && x !in s.dropped && y !in s.dropped && s.dropped <= s.down
    && T.Chan(NodeOf(s, x).inbox, s.rev) == [] && T.Chan(NodeOf(s, y).inbox, s.rev) == []
    && NodeOf(s, y).agent.ownerRev < s.rev && OnlyFinishes(BoxOf(s, x)) && OnlyFinishes(BoxOf(s, y))
  }

  lemma HeldIsUnsafe(s: System, x: CaptureID, y: CaptureID, i: nat) returns (es: seq<Event>, s': System)
    requires Waiting(s, x, y) && i < |BoxOf(s, x)|
    requires var t := BoxOf(s, x)[i].msg.tableID; t in NodeOf(s, y).agent.exec || t in NodeOf(s, y).agent.ops
    ensures Leads(s, es, s') && !Good(s')
  {
    var es1, s1 := Opening(s, x, y);
    assert BoxOf(s1, x) == BoxOf(s, x) && BoxOf(s1, y) == BoxOf(s, y);
    var es2, s2 := Naming(s1, x, y, BoxOf(s, x)[i].msg.tableID);
    LeadsOn(s, es1, s1, es2, s2);
    var es3, s3 := Clashing(s2, x, y, i);
    LeadsOn(s, es1 + es2, s2, es3, s3);
    es, s' := es1 + es2 + es3, s3;
  }

  lemma LateFinishIsUnsafe(s: System, x: CaptureID, y: CaptureID, i: nat) returns (es: seq<Event>, s': System)
    requires Waiting(s, x, y) && i < |BoxOf(s, x)| && Holds(NodeOf(s, y), BoxOf(s, x)[i].msg.tableID)
    requires A.NoDuplicates(QueueOf(NodeOf(s, y)), NodeOf(s, y).agent.ops)
    requires Announce !in T.Chan(NodeOf(s, y).inbox, NodeOf(s, y).agent.ownerRev)
    ensures Leads(s, es, s') && !Good(s')
  {
    var n, t := NodeOf(s, y), BoxOf(s, x)[i].msg.tableID;
    if t in n.agent.exec || t in n.agent.ops {
      es, s' := HeldIsUnsafe(s, x, y, i);
    } else {
      var es1, s1 := TakingAll(s, y, t);
      assert BoxOf(s1, x) == BoxOf(s, x) && BoxOf(s1, y) == BoxOf(s, y);
      var es2, s2 := HeldIsUnsafe(s1, x, y, i);
      LeadsOn(s, es1, s1, es2, s2);
      es, s' := es1 + es2, s2;
    }
  }

  // ----- Exactly who may take office -----

  ghost predicate AlwaysGood(s: System) {
    forall more {:trigger After(s, more)} :: Clean(s, more) ==> After(s, more).Done? && Good(After(s, more).value)
  }

  /** Nobody has been heard in a new term. */
  lemma NobodyHeard(s: System, m: System, o: T.System, rev: nat, h: CaptureID, d: CaptureID)
    requires InvSeen(s, m, o) && rev > s.rev && d !in s.dropped
    ensures var s' := Step(s, Elect(rev, h));
            && s'.rev > 0 && s'.owner == D.INIT && s'.dropped <= s'.down
            && NodeOf(s', d) == NodeOf(s, d) && NodeOf(s, d).agent.ownerRev < s'.rev
            && T.Chan(NodeOf(s', d).inbox, s'.rev) == [] && BoxOf(s', d) == T.Chan(NodeOf(s, d).outbox, h)
  {
    assert LiveSeems(s, m, d) && T.Tracked(o, d) && NodeFollows(m, o, d);
  }

  /** An agent that has heard from an owner turns to the last one it heard from. */
  lemma FollowsItsOwner(s: System, m: System, o: T.System, d: CaptureID)
    requires InvSeen(s, m, o) && d !in s.dropped
    ensures var n := NodeOf(s, d);
            && (n.agent.ownerRev > 0 ==> A.Target(n.agent) == n.agent.ownerRev)
            && (forall r :: r > n.agent.ownerRev ==> T.Chan(n.inbox, r) == [] || T.Chan(n.inbox, r) == [Announce])
            && A.NoDuplicates(QueueOf(n), n.agent.ops) && Announce !in T.Chan(n.inbox, n.agent.ownerRev)
  {
    assert LiveSeems(s, m, d) && T.Tracked(o, d) && NodeFollows(m, o, d);
    assert QueueOf(NodeOf(s, d)) == T.Queue(T.NodeOf(o, d));
  }

  /** A Sync that is due to an earlier term of the capture in office is sent after all. */
  lemma DueSyncIsUnsafe(s: System, d: CaptureID) returns (es: seq<Event>, s': System)
    requires s.rev > 0 && s.owner == D.INIT && d !in s.dropped && s.dropped <= s.down
    requires T.Chan(NodeOf(s, d).inbox, s.rev) == []
    requires var a := NodeOf(s, d).agent;
             && 0 < a.ownerRev < s.rev && a.needSync && A.Target(a) == a.ownerRev
                && HolderOf(s, a.ownerRev) == HolderOf(s, s.rev)
    ensures Leads(s, es, s') && !Good(s')
  {
    var s1 := Acting(s, d, A.SendSync);
    assert BoxOf(s1, d)[|BoxOf(s, d)|].msg.Sync?;
    var es1, s2 := EarlySyncIsUnsafe(s1, d, |BoxOf(s, d)|);
    LeadsOn(s, [AgentActs(d, A.SendSync)], s1, es1, s2);
    es, s' := [AgentActs(d, A.SendSync)] + es1, s2;
  }

  lemma OwingIsUnsafe(s: System, m: System, o: T.System, rev: nat, h: CaptureID, d: CaptureID)
    returns (es: seq<Event>, s': System)
    requires InvSeen(s, m, o) && rev > s.rev && d !in s.dropped && Owes(s, d, h, s.rev + 1)
    ensures Leads(Step(s, Elect(rev, h)), es, s') && !Good(s')
  {
    var s1, n := Step(s, Elect(rev, h)), NodeOf(s, d);
    NobodyHeard(s, m, o, rev, h, d);
    FollowsItsOwner(s, m, o, d);
    if 0 < n.agent.ownerRev < s.rev + 1 && n.agent.needSync && HolderOf(s, n.agent.ownerRev) == h {
      es, s' := DueSyncIsUnsafe(s1, d);
    } else {
      var r :| n.agent.ownerRev < r < s.rev + 1 && HolderOf(s, r) == h && T.Chan(n.inbox, r) != [];
      assert T.Chan(n.inbox, r) == [Announce];
      var e := DeliverToAgent(d, r);
      var s2 := Step(s1, e);
      assert Leads(s1, [], s1);
      LeadsThen(s1, [], s1, e);
      var es1, s3 := DueSyncIsUnsafe(s2, d);
      LeadsOn(s1, [] + [e], s2, es1, s3);
      es, s' := [] + [e] + es1, s3;
    }
  }

  lemma LateReportIsUnsafe(s: System, m: System, o: T.System, rev: nat, h: CaptureID, d: CaptureID, i: nat)
    returns (es: seq<Event>, s': System)
    requires InvSeen(s, m, o) && rev > s.rev && d !in s.dropped && i < |T.Chan(NodeOf(s, d).outbox, h)|
    requires !Harmless(s, d, T.Chan(NodeOf(s, d).outbox, h)[i].msg)
    requires forall c :: c !in s.dropped ==> OnlyFinishes(T.Chan(NodeOf(s, c).outbox, h))
    ensures Leads(Step(s, Elect(rev, h)), es, s') && !Good(s')
  {
    var s1, t := Step(s, Elect(rev, h)), T.Chan(NodeOf(s, d).outbox, h)[i].msg.tableID;
    var y :| y !in s.dropped && y != d && Holds(NodeOf(s, y), t);
    NobodyHeard(s, m, o, rev, h, d);
    NobodyHeard(s, m, o, rev, h, y);
    FollowsItsOwner(s, m, o, y);
    es, s' := LateFinishIsUnsafe(s1, d, y, i);
  }

  /** If a capture takes office that may not, things can go wrong in its term. */
  lemma UnclearIsUnsafe(s: System, m: System, o: T.System, rev: nat, h: CaptureID) returns (es: seq<Event>, s': System)
    requires InvSeen(s, m, o) && rev > s.rev && !Clear(s, h)
    ensures Leads(Step(s, Elect(rev, h)), es, s') && !Good(s')
  {
    var s1 := Step(s, Elect(rev, h));
    if c, i: nat :|
      && c !in s.dropped && i < |T.Chan(NodeOf(s, c).outbox, h)|
      && T.Chan(NodeOf(s, c).outbox, h)[i].msg.Sync?
    {
      NobodyHeard(s, m, o, rev, h, c);
      es, s' := EarlySyncIsUnsafe(s1, c, i);
    } else {
      assert forall c :: c !in s.dropped ==> OnlyFinishes(T.Chan(NodeOf(s, c).outbox, h));
      var d :| d !in s.dropped && !ClearFor(s, d, h);
      if Owes(s, d, h, s.rev + 1) {
        es, s' := OwingIsUnsafe(s, m, o, rev, h, d);
      } else {
        var i: nat :| i < |T.Chan(NodeOf(s, d).outbox, h)| && !Harmless(s, d, T.Chan(NodeOf(s, d).outbox, h)[i].msg);
        es, s' := LateReportIsUnsafe(s, m, o, rev, h, d, i);
      }
    }
  }

  lemma AllowedIsGood(s: System, m: System, o: T.System, e: Event)
    requires InvSeen(s, m, o) && Allowed(s, e)
    ensures AlwaysGood(Step(s, e))
  {
    var s1 := Step(s, e);
    var m0, o0 := LiveStep(s, m, o, e);
    var m1, o1 := CopyDropped(s1, m0, o0);
    forall more | Clean(s1, more) ensures After(s1, more).Done? && Good(After(s1, more).value) {
      var m2, o2 := RunSeems(s1, m1, o1, more);
      SeenIsGood(After(s1, more).value, m2, o2);
    }
  }

  /** A capture can take office, and all be well in every run from there, exactly if of its earlier
      terms no Sync is in flight or due and no other report on what another capture has. */
  lemma OfficeExactly(h0: CaptureID, knowing: set<CaptureID>, events: seq<Event>, s: System, rev: nat, h: CaptureID)
    requires Leads(Knowing(h0, knowing), events, s) && rev > s.rev
    ensures AlwaysGood(Step(s, Elect(rev, h))) <==> Clear(s, h)
  {
    KnowingInv(h0, knowing);
    var m, o := RunSeems(Knowing(h0, knowing), Init(h0), T.INIT, events);
    var s1 := Step(s, Elect(rev, h));
    if Clear(s, h) {
      AllowedIsGood(s, m, o, Elect(rev, h));
    } else {
      var es, s' := UnclearIsUnsafe(s, m, o, rev, h);
      assert After(s1, es) == Done(s');
    }
  }

  // ----- A capture that is new in office -----

  ghost predicate Served(holders: map<nat, CaptureID>, h: CaptureID) {
    exists r :: r in holders && holders[r] == h
  }

  /** The node only knows of terms there were, and writes only to captures that held one. */
  ghost predicate Familiar(n: Node, holders: map<nat, CaptureID>) {
    && (n.agent.ownerRev > 0 ==> n.agent.ownerRev in holders) && (n.agent.target > 0 ==> n.agent.target in holders)
    && (forall r {:trigger T.Chan(n.inbox, r)} :: T.Chan(n.inbox, r) != [] ==> r in holders)
    && (forall h {:trigger T.Chan(n.outbox, h)} :: T.Chan(n.outbox, h) != [] ==> Served(holders, h))
  }

  ghost predicate AllFamiliar(s: System) {
    && s.rev in s.holders && (forall r :: r in s.holders ==> r <= s.rev)
    && forall d {:trigger NodeOf(s, d)} :: Familiar(NodeOf(s, d), s.holders)
  }

  lemma OwnerFamiliar(s: System, a: D.OwnerAction)
    requires AllFamiliar(s) && Enabled(s, OwnerActs(a))
    ensures AllFamiliar(Step(s, OwnerActs(a)))
  {
    var s' := Step(s, OwnerActs(a));
    forall d ensures Familiar(NodeOf(s', d), s'.holders) {
      PostedMail(s, a, d);
      assert Familiar(NodeOf(s, d), s.holders);
    }
  }

  lemma AgentFamiliar(s: System, c: CaptureID, act: A.AgentAction)
    requires AllFamiliar(s) && Enabled(s, AgentActs(c, act))
    ensures AllFamiliar(Step(s, AgentActs(c, act)))
  {
    var s', n := Step(s, AgentActs(c, act)), NodeOf(s, c);
    assert Familiar(n, s.holders);
    var mail := A.Sends(n.agent, act);
    if mail != [] {
      assert mail[0].rev in s.holders;
      assert Served(s.holders, HolderOf(s, mail[0].rev));
    }
    forall h | T.Chan(NodeOf(s', c).outbox, h) != [] ensures Served(s.holders, h) {
      assert T.Chan(n.outbox, h) != [] || (mail != [] && h == HolderOf(s, mail[0].rev));
    }
    assert Familiar(NodeOf(s', c), s'.holders);
    forall d ensures Familiar(NodeOf(s', d), s'.holders) {
      assert d != c ==> NodeOf(s', d) == NodeOf(s, d);
    }
  }

  lemma MessageFamiliar(s: System, e: Event)
    requires AllFamiliar(s) && Enabled(s, e) && (e.DeliverToAgent? || e.DeliverToOwner?)
    ensures AllFamiliar(Step(s, e))
  {
    var s', c := Step(s, e), e.captureID;
    var n, n' := NodeOf(s, c), NodeOf(s', c);
    assert Familiar(n, s.holders);
    forall r | T.Chan(n'.inbox, r) != [] ensures r in s.holders {
      assert T.Chan(n.inbox, r) != [];
    }
    forall h | T.Chan(n'.outbox, h) != [] ensures Served(s.holders, h) {
      assert T.Chan(n.outbox, h) != [];
    }
    assert Familiar(n', s'.holders);
    forall d ensures Familiar(NodeOf(s', d), s'.holders) {
      assert d != c ==> NodeOf(s', d) == NodeOf(s, d);
    }
  }

  lemma ElectFamiliar(s: System, rev: nat, h: CaptureID)
    requires AllFamiliar(s) && rev > s.rev
    ensures AllFamiliar(Step(s, Elect(rev, h)))
  {
    var s' := Step(s, Elect(rev, h));
    forall c | Served(s.holders, c) ensures Served(s'.holders, c) {
      var r :| r in s.holders && s.holders[r] == c;
      assert r in s'.holders && s'.holders[r] == c;
    }
    forall d ensures Familiar(NodeOf(s', d), s'.holders) {
      assert NodeOf(s', d) == NodeOf(s, d) && Familiar(NodeOf(s, d), s.holders);
    }
  }

  lemma {:induction false} RunFamiliar(s: System, events: seq<Event>)
    requires AllFamiliar(s) && Clean(s, events) && After(s, events).Done?
    ensures AllFamiliar(After(s, events).value)
    decreases |events|
  {
    if events != [] {
      match events[0] {
        case OwnerActs(a) => OwnerFamiliar(s, a);
        case AgentActs(c, act) => AgentFamiliar(s, c, act);
        case DeliverToAgent(_, _) => MessageFamiliar(s, events[0]);
        case DeliverToOwner(_) => MessageFamiliar(s, events[0]);
        case CaptureDown(_) => assert forall d :: NodeOf(Step(s, events[0]), d) == NodeOf(s, d);
        case Elect(rev, h) => ElectFamiliar(s, rev, h);
      }
      RunFamiliar(Step(s, events[0]), events[1..]);
    }
  }

  lemma FamiliarIsClear(s: System, h: CaptureID, d: CaptureID)
    requires AllFamiliar(s) && !Served(s.holders, h)
    ensures ClearFor(s, d, h)
  {
    var n := NodeOf(s, d);
    assert Familiar(n, s.holders) && T.Chan(n.outbox, h) == [];
    forall r | r in s.holders ensures HolderOf(s, r) != h {
      assert s.holders[r] != h;
    }
  }

  /** A capture that has not been in office before may always take it. */
  lemma NewInOffice(h0: CaptureID, knowing: set<CaptureID>, events: seq<Event>, s: System, rev: nat, h: CaptureID)
    requires Leads(Knowing(h0, knowing), events, s) && rev > s.rev && !Served(s.holders, h)
    ensures Clear(s, h) && AlwaysGood(Step(s, Elect(rev, h)))
  {
    RunFamiliar(Knowing(h0, knowing), events);
    forall d | d !in s.dropped ensures ClearFor(s, d, h) {
      FamiliarIsClear(s, h, d);
    }
    OfficeExactly(h0, knowing, events, s, rev, h);
  }

  // ----- A capture that comes back -----

  /** A run in which a capture takes office twice and all goes wrong: an agent answers the Announce
      of the first term in the second. */
  lemma ComingBackIsUnsafe(h: CaptureID) returns (before: seq<Event>, after: seq<Event>)
    ensures var events := before + [Elect(2, h)] + after;
            After(Init(h), events).Done? && !Good(After(Init(h), events).value)
  {
    var s0 := Init(h);
    var e1, e2, e3 := OwnerActs(D.Refresh({1}, 0)), OwnerActs(D.SendAnnounce(1)), DeliverToAgent(1, 1);
    var listed := D.Dispatcher({1}, map[1 := D.CaptureStatus(D.Uninitialized, 0, 0)], map[], map[]);
    D.ListedIsRefresh(s0.owner, {1}, 0, listed);
    var s1 := Step(s0, e1);
    assert s1.owner == listed;
    var s2 := Step(s1, e2);
    assert T.Chan(NodeOf(s2, 1).inbox, 1) == [] + [Announce];
    var s3 := Step(s2, e3);
    assert Leads(s0, [], s0);
    LeadsThen(s0, [], s0, e1);
    LeadsThen(s0, [] + [e1], s1, e2);
    LeadsThen(s0, [] + [e1] + [e2], s2, e3);
    before := [] + [e1] + [e2] + [e3];
    KnowingInv(h, {});
    assert s0 == Knowing(h, {});
    var m, o := RunSeems(s0, Init(h), T.INIT, before);
    var s';
    after, s' := OwingIsUnsafe(s3, m, o, 2, h, 1);
    AfterElection(s0, before, s3, 2, h, after, s');
  }

  lemma {:induction false} AfterElection(s: System, es: seq<Event>, m: System, rev: nat, h: CaptureID, fs: seq<Event>,
                                         s': System)
    requires Leads(s, es, m) && rev > m.rev && Leads(Step(m, Elect(rev, h)), fs, s')
    ensures After(s, es + [Elect(rev, h)] + fs) == Done(s')
    decreases |es|
  {
    var all := es + [Elect(rev, h)] + fs;
    if es == [] {
      assert all[0] == Elect(rev, h) && all[1..] == fs;
    } else {
      AfterElection(Step(s, es[0]), es[1..], m, rev, h, fs, s');
      assert all[0] == es[0] && all[1..] == es[1..] + [Elect(rev, h)] + fs;
    }
  }
}
