/** Agents that know the owner without having heard from it, as the source has it: they have a Sync
    due from the start. A run with such agents looks like one without them as long as no such Sync
    goes to the capture in office. */
module SchedulerKnowing {
  import opened SchedulerTypes
  import opened SchedulerProtocol
  import D = DispatcherSpec
  import A = AgentSpec
  import T = TermProtocol

  /** The start, except that some agents know the owner already. */
  ghost function Knowing(h: CaptureID, knowing: set<CaptureID>): System {
    Init(h).(nodes := Filled(knowing, Node(A.INIT.(target := 1), map[], map[])))
  }

  // ----- What such a system looks like -----

  ghost predicate NoDispatch(box: seq<OwnerMsg>) {
    forall i :: 0 <= i < |box| ==> box[i].Announce?
  }

  /** An agent that has not turned to any owner has nothing and has sent nothing. */
  ghost predicate Blank(n: Node) {
    n.agent.target == 0 ==>
      && n.agent.pending == [] && n.agent.ops == map[]
      && (forall r {:trigger T.Chan(n.inbox, r)} :: NoDispatch(T.Chan(n.inbox, r)))
      && (forall k {:trigger T.Chan(n.outbox, k)} :: T.Chan(n.outbox, k) == [])
  }

  /** It looks as if it did not know the owner. */
  predicate AgentSeems(a: A.Agent, b: A.Agent) {
    || a == b
    || (&& b.target == 0 && a == b.(target := a.target, needSync := a.needSync)
        && (a.needSync == b.needSync || b.ownerRev == 0))
  }

  /** It looks as if the first report, a Sync, had not been sent. */
  predicate BoxSeems(box: seq<A.Report>, box': seq<A.Report>) {
    box == box' || (box != [] && box[0].msg.Sync? && box[1..] == box')
  }

  ghost predicate NodeSeems(n: Node, m: Node, office: CaptureID) {
    && AgentSeems(n.agent, m.agent) && n.inbox == m.inbox && Blank(m)
    && (forall k {:trigger T.Chan(n.outbox, k)} {:trigger T.Chan(m.outbox, k)} ::
          BoxSeems(T.Chan(n.outbox, k), T.Chan(m.outbox, k)))
    && T.Chan(n.outbox, office) == T.Chan(m.outbox, office)
    && (m.agent.ownerRev == 0 && n.agent.needSync ==>
          forall k {:trigger T.Chan(n.outbox, k)} :: T.Chan(n.outbox, k) == T.Chan(m.outbox, k))
  }

  ghost predicate LiveSeems(s: System, m: System, c: CaptureID) {
    NodeSeems(NodeOf(s, c), NodeOf(m, c), HolderOf(s, s.rev))
  }

  ghost predicate AllLiveSeem(s: System, m: System) {
    s == m.(nodes := s.nodes) && forall c {:trigger LiveSeems(s, m, c)} :: c !in s.dropped ==> LiveSeems(s, m, c)
  }

  ghost predicate Seems(s: System, m: System) {
    && AllLiveSeem(s, m)
    && forall c {:trigger NodeOf(s, c)} {:trigger NodeOf(m, c)} :: c in s.dropped ==> NodeOf(s, c) == NodeOf(m, c)
  }

  ghost predicate InvSeen(s: System, m: System, o: T.System) {
    Seems(s, m) && Inv(m, o)
  }

  // ----- Captures that are gone -----

  /** The nodes of `cs` as they are in `nodes`. */
  ghost function Copied(nodes: map<CaptureID, Node>, cs: set<CaptureID>, others: map<CaptureID, T.Node>)
    : (r: map<CaptureID, T.Node>)
    ensures forall c :: c !in cs ==> (c in r <==> c in others) && (c in r ==> r[c] == others[c])
    ensures forall c :: c in cs ==> (c in r <==> c in nodes || c in others)
    ensures forall c :: c in cs && c in r ==>
              var n := if c in nodes then nodes[c] else INIT_NODE; r[c].agent == n.agent && r[c].inbox == n.inbox
    decreases |cs|
  {
    if cs == {} then others
    else
      var c :| c in cs;
      var r := Copied(nodes, cs - {c}, others);
      var n := if c in nodes then nodes[c] else INIT_NODE;
      if c in nodes || c in others then r[c := T.Node(n.agent, n.inbox, map[])] else r
  }

  /** Nothing depends on what the nodes of captures that are gone look like. */
  lemma CopyDropped(s: System, m: System, o: T.System) returns (m': System, o': T.System)
    requires AllLiveSeem(s, m) && Inv(m, o)
    ensures InvSeen(s, m', o')
  {
    m' := m.(nodes := Overlaid(m.nodes, s.nodes, s.dropped));
    o' := o.(nodes := Copied(s.nodes, s.dropped, o.nodes));
    CopyFollows(s, m, o, m', o');
    forall c | c !in s.dropped ensures LiveSeems(s, m', c) {
      assert LiveSeems(s, m, c);
    }
  }

  function Overlaid(nodes: map<CaptureID, Node>, over: map<CaptureID, Node>, cs: set<CaptureID>)
    : (r: map<CaptureID, Node>)
    ensures forall c :: c in r <==> if c in cs then c in over else c in nodes
    ensures forall c :: c in r ==> r[c] == if c in cs then over[c] else nodes[c]
  {
    (nodes - cs) + (over - (over.Keys - cs))
  }

  lemma CopyFollows(s: System, m: System, o: T.System, m': System, o': T.System)
    requires Inv(m, o) && s.dropped == m.dropped && m' == m.(nodes := m'.nodes) && o' == o.(nodes := o'.nodes)
    requires forall c :: c !in s.dropped ==> NodeOf(m', c) == NodeOf(m, c) && T.NodeOf(o', c) == T.NodeOf(o, c)
    requires forall c :: c in s.dropped ==>
               T.NodeOf(o', c).agent == NodeOf(m', c).agent && T.NodeOf(o', c).inbox == NodeOf(m', c).inbox
    ensures Inv(m', o')
  {
    forall c ensures NodeFollows(m', o', c) {
      assert NodeFollows(m, o, c);
    }
    forall c | c !in o'.dropped ensures T.Tracked(o', c) {
      assert T.Tracked(o, c);
    }
    assert forall c, t :: c !in o'.dropped ==> T.Claimed(o', c, t) == T.Claimed(o, c, t);
    forall d | d !in m'.dropped ensures MailOk(m', o', d) {
      assert MailOk(m, o, d);
      CopyMail(m, o, m', o', d);
    }
  }

  lemma CopyMail(m: System, o: T.System, m': System, o': T.System, d: CaptureID)
    requires MailOk(m, o, d) && NodeOf(m', d) == NodeOf(m, d) && m' == m.(nodes := m'.nodes)
    requires o' == o.(nodes := o'.nodes)
    requires forall c, t :: c !in o'.dropped ==> T.Claimed(o', c, t) == T.Claimed(o, c, t)
    ensures MailOk(m', o', d)
  {
    forall i | 0 <= i < |BoxOf(m', d)| ensures LateOk(o', d, BoxOf(m', d)[i]) {
      assert LateOk(o, d, BoxOf(m, d)[i]);
    }
  }

  // ----- Steps -----

  lemma BoxSeemsSnoc(box: seq<A.Report>, box': seq<A.Report>, r: A.Report)
    requires BoxSeems(box, box')
    ensures BoxSeems(box + [r], box' + [r])
  {
    if box != box' {
      assert (box + [r])[1..] == box[1..] + [r];
    }
  }

  /** A capture that has not turned to the owner is not sent any operation. */
  lemma NotDispatchedTo(m: System, o: T.System, a: D.OwnerAction, c: CaptureID)
    requires Inv(m, o) && Enabled(m, OwnerActs(a)) && c !in m.dropped && NodeOf(m, c).agent.target == 0
    ensures D.Sends(m.owner, a) != [] && D.Sends(m.owner, a)[0].to == c ==> D.Sends(m.owner, a)[0].msg.Announce?
  {
    assert T.Tracked(o, c) && NodeFollows(m, o, c);
    if a.DispatchAdd? {
      assert a.target in m.owner.captures + m.dropped;
    } else if a.DispatchRemove? || a.DispatchMove? {
      T.RecordedOk(o, a.tableID);
    }
  }

  /** The channel that the owner writes to. */
  function Written(s: System, a: D.OwnerAction, c: CaptureID): map<nat, seq<OwnerMsg>>
    requires D.Enabled(s.owner, a)
  {
    var n, mail := NodeOf(s, c), D.Sends(s.owner, a);
    if mail != [] && mail[0].to == c then n.inbox[s.rev := T.Chan(n.inbox, s.rev) + [mail[0].msg]] else n.inbox
  }

  lemma WrittenIs(s: System, a: D.OwnerAction, c: CaptureID)
    requires Enabled(s, OwnerActs(a))
    ensures NodeOf(Step(s, OwnerActs(a)), c) == NodeOf(s, c).(inbox := Written(s, a, c))
  {
  }

  lemma InboxSeems(n: Node, m: Node, office: CaptureID, inbox: map<nat, seq<OwnerMsg>>)
    requires NodeSeems(n, m, office)
    requires m.agent.target == 0 ==> forall r {:trigger T.Chan(inbox, r)} :: NoDispatch(T.Chan(inbox, r))
    ensures NodeSeems(n.(inbox := inbox), m.(inbox := inbox), office)
  {
  }

  lemma OneOwnerSeems(s: System, m: System, o: T.System, a: D.OwnerAction, c: CaptureID)
    requires InvSeen(s, m, o) && Enabled(s, OwnerActs(a)) && Enabled(m, OwnerActs(a)) && c !in s.dropped
    ensures LiveSeems(Step(s, OwnerActs(a)), Step(m, OwnerActs(a)), c)
  {
    assert LiveSeems(s, m, c);
    WrittenIs(s, a, c);
    WrittenIs(m, a, c);
    var n, inbox := NodeOf(m, c), Written(m, a, c);
    if n.agent.target == 0 {
      NotDispatchedTo(m, o, a, c);
      forall r ensures NoDispatch(T.Chan(inbox, r)) {
        assert NoDispatch(T.Chan(n.inbox, r));
      }
    }
    InboxSeems(NodeOf(s, c), n, HolderOf(s, s.rev), inbox);
  }

  lemma OwnerSeems(s: System, m: System, o: T.System, a: D.OwnerAction)
    requires InvSeen(s, m, o) && Enabled(s, OwnerActs(a))
    ensures Enabled(m, OwnerActs(a)) && AllLiveSeem(Step(s, OwnerActs(a)), Step(m, OwnerActs(a)))
  {
    forall c | c !in s.dropped ensures LiveSeems(Step(s, OwnerActs(a)), Step(m, OwnerActs(a)), c) {
      OneOwnerSeems(s, m, o, a, c);
    }
  }

  /** An agent that looks like another does the same. */
  lemma ActsAlike(a: A.Agent, b: A.Agent, act: A.AgentAction)
    requires AgentSeems(a, b) && A.Enabled(a, act)
    requires b.target <= b.ownerRev && (b.target < b.ownerRev ==> b.ownerHasChanged)
    requires b.target == 0 ==> b.pending == [] && b.ops == map[]
    requires !(act.SendSync? && Unheard(a))
    requires b.ownerRev == 0 ==> !b.ownerHasChanged
    ensures A.Enabled(b, act) && A.Sends(b, act) == A.Sends(a, act) && AgentSeems(A.Step(a, act), A.Step(b, act))
    ensures A.Sends(b, act) != [] ==> A.Step(b, act).target > 0
    ensures A.Step(b, act).target == 0 ==> A.Step(b, act).pending == [] && A.Step(b, act).ops == map[]
    ensures A.Step(b, act).ownerRev == b.ownerRev && (A.Step(a, act).needSync ==> a.needSync)
  {
    assert b.target == 0 ==> A.Taken(b.pending) == map[];
  }

  /** One node changes, the others look as before. */
  lemma OneNodeSeems(s: System, m: System, c: CaptureID, n: Node, n': Node)
    requires AllLiveSeem(s, m) && (c !in s.dropped ==> NodeSeems(n, n', HolderOf(s, s.rev)))
    ensures AllLiveSeem(s.(nodes := s.nodes[c := n]), m.(nodes := m.nodes[c := n']))
  {
    var s', m' := s.(nodes := s.nodes[c := n]), m.(nodes := m.nodes[c := n']);
    forall d | d !in s'.dropped ensures LiveSeems(s', m', d) {
      assert d != c ==> LiveSeems(s, m, d);
    }
  }

  lemma GoneNodeSeems(s: System, m: System, c: CaptureID, n: Node)
    requires AllLiveSeem(s, m) && c in s.dropped
    ensures AllLiveSeem(s.(nodes := s.nodes[c := n]), m)
  {
    var s' := s.(nodes := s.nodes[c := n]);
    forall d | d !in s'.dropped ensures LiveSeems(s', m, d) {
      assert LiveSeems(s, m, d);
    }
  }

  lemma ReportSeems(s: System, n: Node, m: Node, mail: seq<A.Report>, a: A.Agent, b: A.Agent)
    requires |mail| <= 1 && NodeSeems(n, m, HolderOf(s, s.rev)) && AgentSeems(a, b)
    requires b.ownerRev == m.agent.ownerRev && (a.needSync ==> n.agent.needSync)
    requires mail != [] ==> b.target > 0
    requires b.target == 0 ==> m.agent.target == 0 && b.pending == [] && b.ops == map[]
    ensures NodeSeems(Reported(s, n, mail).(agent := a), Reported(s, m, mail).(agent := b), HolderOf(s, s.rev))
  {
    var n', m' := Reported(s, n, mail), Reported(s, m, mail);
    forall k ensures BoxSeems(T.Chan(n'.outbox, k), T.Chan(m'.outbox, k)) {
      assert BoxSeems(T.Chan(n.outbox, k), T.Chan(m.outbox, k));
      if mail != [] { BoxSeemsSnoc(T.Chan(n.outbox, k), T.Chan(m.outbox, k), mail[0]); }
    }
    if b.ownerRev == 0 && a.needSync {
      forall k ensures T.Chan(n'.outbox, k) == T.Chan(m'.outbox, k) {
        assert T.Chan(n.outbox, k) == T.Chan(m.outbox, k);
      }
    }
    if b.target == 0 {
      assert n'.outbox == n.outbox && m'.outbox == m.outbox && Blank(m);
    }
  }

  /** The Sync that nobody asked for goes elsewhere. */
  lemma StraySeems(s: System, m: System, c: CaptureID)
    requires AllLiveSeem(s, m) && c !in s.dropped && NodeOf(m, c).agent.target == 0
    requires var a := NodeOf(s, c).agent; Unheard(a) && a.needSync && !a.ownerHasChanged
    requires Discreet(s, AgentActs(c, A.SendSync))
    ensures AllLiveSeem(Step(s, AgentActs(c, A.SendSync)), m)
  {
    assert LiveSeems(s, m, c);
    var n, n' := NodeOf(s, c), NodeOf(Step(s, AgentActs(c, A.SendSync)), c);
    var h, r := HolderOf(s, n.agent.target), A.Report(n.agent.target, A.SyncOf(n.agent));
    forall k ensures BoxSeems(T.Chan(n'.outbox, k), T.Chan(NodeOf(m, c).outbox, k)) {
      assert T.Chan(n.outbox, k) == T.Chan(NodeOf(m, c).outbox, k) == [];
      assert k == h ==> T.Chan(n'.outbox, k) == [] + [r] && ([] + [r])[1..] == [];
    }
    var s' := Step(s, AgentActs(c, A.SendSync));
    forall d | d !in s'.dropped ensures LiveSeems(s', m, d) {
      assert d != c ==> LiveSeems(s, m, d);
    }
  }

  lemma NodeSeemsToAct(s: System, n: Node, m: Node, act: A.AgentAction)
    requires NodeSeems(n, m, HolderOf(s, s.rev)) && A.Enabled(n.agent, act) && !(act.SendSync? && Unheard(n.agent))
    requires m.agent.target <= m.agent.ownerRev && (m.agent.target < m.agent.ownerRev <==> m.agent.ownerHasChanged)
    ensures A.Enabled(m.agent, act) && A.Sends(m.agent, act) == A.Sends(n.agent, act)
    ensures NodeSeems(Reported(s, n, A.Sends(n.agent, act)).(agent := A.Step(n.agent, act)),
                      Reported(s, m, A.Sends(n.agent, act)).(agent := A.Step(m.agent, act)), HolderOf(s, s.rev))
  {
    ActsAlike(n.agent, m.agent, act);
    ReportSeems(s, n, m, A.Sends(n.agent, act), A.Step(n.agent, act), A.Step(m.agent, act));
  }

  lemma AgentSeemsToAct(s: System, m: System, o: T.System, c: CaptureID, act: A.AgentAction)
    requires InvSeen(s, m, o) && Enabled(s, AgentActs(c, act)) && c !in s.dropped
    requires !(act.SendSync? && Unheard(NodeOf(s, c).agent))
    ensures Enabled(m, AgentActs(c, act)) && AllLiveSeem(Step(s, AgentActs(c, act)), Step(m, AgentActs(c, act)))
  {
    assert LiveSeems(s, m, c);
    LiveRevs(m, o, c);
    var n, n' := NodeOf(s, c), NodeOf(m, c);
    NodeSeemsToAct(s, n, n', act);
    var mail := A.Sends(n.agent, act);
    OneNodeSeems(s, m, c, Reported(s, n, mail).(agent := A.Step(n.agent, act)),
                 Reported(s, n', mail).(agent := A.Step(n'.agent, act)));
  }

  /** What is known of the terms that a live agent follows. */
  lemma LiveRevs(m: System, o: T.System, c: CaptureID)
    requires Inv(m, o) && c !in m.dropped
    ensures var a := NodeOf(m, c).agent;
            && a.target <= a.ownerRev <= m.rev && (a.target < a.ownerRev <==> a.ownerHasChanged)
            && (a.ownerHasChanged ==> a.needSync) && Announce !in T.Chan(NodeOf(m, c).inbox, a.ownerRev)
  {
    assert T.Tracked(o, c) && NodeFollows(m, o, c);
  }

  lemma HearsAlike(a: A.Agent, b: A.Agent, rev: nat, msg: OwnerMsg)
    requires AgentSeems(a, b) && (b.target == 0 ==> msg.Announce? && b.pending == []) && (rev == 0 ==> b.ownerRev > 0)
    ensures var a', b' := A.OnOwnerMsg(a, rev, msg), A.OnOwnerMsg(b, rev, msg);
            && AgentSeems(a', b') && b'.target == b.target && b'.ops == b.ops && b'.ownerRev > 0
            && (b.target == 0 ==> b'.pending == [])
  {
  }

  lemma NodeSeemsToHear(n: Node, m: Node, office: CaptureID, rev: nat)
    requires NodeSeems(n, m, office) && T.Chan(n.inbox, rev) != [] && Announce !in T.Chan(m.inbox, m.agent.ownerRev)
    requires m.agent.target <= m.agent.ownerRev
    ensures var box := T.Chan(n.inbox, rev);
            NodeSeems(n.(agent := A.OnOwnerMsg(n.agent, rev, box[0]), inbox := n.inbox[rev := box[1..]]),
                      m.(agent := A.OnOwnerMsg(m.agent, rev, box[0]), inbox := m.inbox[rev := box[1..]]), office)
  {
    var box := T.Chan(n.inbox, rev);
    if m.agent.target == 0 {
      assert NoDispatch(T.Chan(m.inbox, rev));
      assert box[0].Announce? && box[0] in box;
      var inbox := m.inbox[rev := box[1..]];
      forall r ensures NoDispatch(T.Chan(inbox, r)) {
        assert NoDispatch(T.Chan(m.inbox, r));
      }
    }
    HearsAlike(n.agent, m.agent, rev, box[0]);
  }

  lemma AgentSeemsToHear(s: System, m: System, o: T.System, c: CaptureID, rev: nat)
    requires InvSeen(s, m, o) && Enabled(s, DeliverToAgent(c, rev)) && c !in s.dropped
    ensures Enabled(m, DeliverToAgent(c, rev))
    ensures AllLiveSeem(Step(s, DeliverToAgent(c, rev)), Step(m, DeliverToAgent(c, rev)))
  {
    assert LiveSeems(s, m, c);
    LiveRevs(m, o, c);
    NodeSeemsToHear(NodeOf(s, c), NodeOf(m, c), HolderOf(s, s.rev), rev);
    OneNodeSeems(s, m, c, NodeOf(Step(s, DeliverToAgent(c, rev)), c), NodeOf(Step(m, DeliverToAgent(c, rev)), c));
  }

  /** The reports to the capture in office look the same. */
  lemma SameBox(s: System, m: System, c: CaptureID)
    requires Seems(s, m)
    ensures BoxOf(s, c) == BoxOf(m, c)
  {
    if c in s.dropped {
      assert NodeOf(s, c) == NodeOf(m, c);
    } else {
      assert LiveSeems(s, m, c);
    }
  }

  lemma NodeSeemsRead(n: Node, m: Node, office: CaptureID)
    requires NodeSeems(n, m, office) && T.Chan(n.outbox, office) != []
    ensures var box := T.Chan(n.outbox, office);
            NodeSeems(n.(outbox := n.outbox[office := box[1..]]), m.(outbox := m.outbox[office := box[1..]]), office)
  {
    var box := T.Chan(n.outbox, office);
    var n', m' := n.outbox[office := box[1..]], m.outbox[office := box[1..]];
    forall k ensures BoxSeems(T.Chan(n', k), T.Chan(m', k)) {
      assert BoxSeems(T.Chan(n.outbox, k), T.Chan(m.outbox, k));
    }
    assert m.agent.target == 0 ==> T.Chan(m.outbox, office) == [];
    if m.agent.ownerRev == 0 && n.agent.needSync {
      forall k ensures T.Chan(n', k) == T.Chan(m', k) {
        assert T.Chan(n.outbox, k) == T.Chan(m.outbox, k);
      }
    }
  }

  lemma OwnerSeemsToHear(s: System, m: System, c: CaptureID)
    requires Seems(s, m) && Enabled(s, DeliverToOwner(c))
    ensures Enabled(m, DeliverToOwner(c)) && AllLiveSeem(Step(s, DeliverToOwner(c)), Step(m, DeliverToOwner(c)))
  {
    SameBox(s, m, c);
    var e, office := DeliverToOwner(c), HolderOf(s, s.rev);
    if c !in s.dropped {
      assert LiveSeems(s, m, c);
      NodeSeemsRead(NodeOf(s, c), NodeOf(m, c), office);
    }
    var s1, m1 := s.(owner := Step(s, e).owner), m.(owner := Step(s, e).owner);
    forall d | d !in s.dropped ensures LiveSeems(s1, m1, d) {
      assert LiveSeems(s, m, d);
    }
    OneNodeSeems(s1, m1, c, NodeOf(Step(s, e), c), NodeOf(Step(m, e), c));
  }

  // ----- Elections -----

  lemma HoldsAlike(n: Node, m: Node, office: CaptureID, t: TableID)
    requires NodeSeems(n, m, office)
    ensures Holds(n, t) <==> Holds(m, t)
  {
  }

  lemma HarmlessAlike(s: System, m: System, d: CaptureID, msg: AgentMsg)
    requires AllLiveSeem(s, m)
    ensures Harmless(s, d, msg) <==> Harmless(m, d, msg)
  {
    if msg.Finish? {
      forall c | c !in s.dropped ensures Holds(NodeOf(s, c), msg.tableID) <==> Holds(NodeOf(m, c), msg.tableID) {
        assert LiveSeems(s, m, c);
        HoldsAlike(NodeOf(s, c), NodeOf(m, c), HolderOf(s, s.rev), msg.tableID);
      }
    }
  }

  /** Where no Sync is in flight, what is in flight looks the same. */
  lemma ClearAlike(s: System, m: System, d: CaptureID, h: CaptureID)
    requires AllLiveSeem(s, m) && d !in s.dropped && ClearFor(s, d, h)
    ensures ClearFor(m, d, h) && T.Chan(NodeOf(s, d).outbox, h) == T.Chan(NodeOf(m, d).outbox, h)
  {
    assert LiveSeems(s, m, d);
    var box := T.Chan(NodeOf(s, d).outbox, h);
    assert BoxSeems(box, T.Chan(NodeOf(m, d).outbox, h));
    assert box != [] ==> Harmless(s, d, box[0].msg);
    forall i | 0 <= i < |box| ensures Harmless(m, d, box[i].msg) {
      HarmlessAlike(s, m, d, box[i].msg);
    }
    assert Owes(m, d, h, m.rev + 1) ==> Owes(s, d, h, s.rev + 1);
  }

  lemma ElectSeems(s: System, m: System, rev: nat, h: CaptureID)
    requires AllLiveSeem(s, m) && rev > s.rev && Clear(s, h)
    ensures Clear(m, h) && AllLiveSeem(Step(s, Elect(rev, h)), Step(m, Elect(rev, h)))
  {
    var s', m' := Step(s, Elect(rev, h)), Step(m, Elect(rev, h));
    forall d | d !in s.dropped ensures ClearFor(m, d, h) && LiveSeems(s', m', d) {
      assert ClearFor(s, d, h) && LiveSeems(s, m, d);
      ClearAlike(s, m, d, h);
    }
  }

  // ----- Every run -----

  lemma DownSeems(s: System, m: System, c: CaptureID)
    requires AllLiveSeem(s, m)
    ensures AllLiveSeem(Step(s, CaptureDown(c)), Step(m, CaptureDown(c)))
  {
    forall d | d !in s.dropped ensures LiveSeems(Step(s, CaptureDown(c)), Step(m, CaptureDown(c)), d) {
      assert LiveSeems(s, m, d);
    }
  }

  /** Either the system that is seen moves as well, or it stays as it is. */
  lemma LiveStep(s: System, m: System, o: T.System, e: Event) returns (m': System, o': T.System)
    requires InvSeen(s, m, o) && Allowed(s, e)
    ensures AllLiveSeem(Step(s, e), m') && Inv(m', o')
  {
    var stays := (e.AgentActs? || e.DeliverToAgent?) && e.captureID in s.dropped;
    if stays {
      m', o' := m, o;
      GoneNodeSeems(s, m, e.captureID, NodeOf(Step(s, e), e.captureID));
    } else if e.AgentActs? && e.act.SendSync? && Unheard(NodeOf(s, e.captureID).agent) {
      m', o' := m, o;
      assert LiveSeems(s, m, e.captureID);
      LiveRevs(m, o, e.captureID);
      StraySeems(s, m, e.captureID);
    } else {
      Mirrored(s, m, o, e);
      m' := Step(m, e);
      AllDiscreet(m, o, e);
      o' := StepOk(m, o, e);
    }
  }

  lemma Mirrored(s: System, m: System, o: T.System, e: Event)
    requires InvSeen(s, m, o) && Allowed(s, e)
    requires (e.AgentActs? || e.DeliverToAgent?) ==> e.captureID !in s.dropped
    requires !(e.AgentActs? && e.act.SendSync? && Unheard(NodeOf(s, e.captureID).agent))
    ensures Legitimate(m, e) && AllLiveSeem(Step(s, e), Step(m, e))
  {
    match e
    case OwnerActs(a) => OwnerSeems(s, m, o, a);
    case AgentActs(c, act) => AgentSeemsToAct(s, m, o, c, act);
    case DeliverToAgent(c, rev) => AgentSeemsToHear(s, m, o, c, rev);
    case DeliverToOwner(c) => OwnerSeemsToHear(s, m, c);
    case CaptureDown(c) => DownSeems(s, m, c);
    case Elect(rev, h) => ElectSeems(s, m, rev, h);
  }

  lemma KnowingInv(h: CaptureID, knowing: set<CaptureID>)
    ensures InvSeen(Knowing(h, knowing), Init(h), T.INIT)
  {
    InitInv(h);
    var s, m := Knowing(h, knowing), Init(h);
    forall c ensures LiveSeems(s, m, c) {}
  }

  lemma {:induction false} RunSeems(s: System, m: System, o: T.System, events: seq<Event>)
    returns (m': System, o': T.System)
    requires InvSeen(s, m, o) && Clean(s, events)
    ensures After(s, events).Done? && InvSeen(After(s, events).value, m', o')
    decreases |events|
  {
    if events == [] {
      m', o' := m, o;
    } else {
      var m1, o1 := LiveStep(s, m, o, events[0]);
      var m2, o2 := CopyDropped(Step(s, events[0]), m1, o1);
      m', o' := RunSeems(Step(s, events[0]), m2, o2, events[1..]);
    }
  }

  lemma SeenIsGood(s: System, m: System, o: T.System)
    requires InvSeen(s, m, o)
    ensures Good(s)
  {
    InvImpliesGood(m, o);
    forall c | c !in s.dropped
      ensures var a, b := NodeOf(s, c).agent, NodeOf(m, c).agent;
              a.exec == b.exec && a.pending == b.pending && a.ops == b.ops
    {
      assert LiveSeems(s, m, c);
    }
    forall c | BoxOf(s, c) != [] ensures D.OnMessage(s.owner, c, BoxOf(s, c)[0].msg).Done? {
      SameBox(s, m, c);
    }
  }

  /** With agents that know the owner from the start: in every run in which no capture takes office
      that may not, and no agent sends a Sync unasked to the capture in office, all is well. */
  lemma EveryDiscreetRunIsSafe(h: CaptureID, knowing: set<CaptureID>, events: seq<Event>)
    requires Clean(Knowing(h, knowing), events)
    ensures After(Knowing(h, knowing), events).Done? && Good(After(Knowing(h, knowing), events).value)
  {
    KnowingInv(h, knowing);
    var m, o := RunSeems(Knowing(h, knowing), Init(h), T.INIT, events);
    SeenIsGood(After(Knowing(h, knowing), events).value, m, o);
  }
}
