/** The whole scheduling system: one owner term at a time, every capture's agent, and the
    messages in flight between them. Messages to agents carry the owner's revision; reports
    carry none, and are addressed to the capture that holds the office. */
module SchedulerProtocol {
  import opened SchedulerTypes
  import D = DispatcherSpec
  import A = AgentSpec
  import T = TermProtocol

  /** A capture's agent, the messages in flight to it from the owner of each revision, and its
      reports in flight to each capture. The revision a report was meant for is kept with it
      for the sake of proof; nobody reads it. */
  datatype Node = Node(agent: A.Agent, inbox: map<nat, seq<OwnerMsg>>, outbox: map<CaptureID, seq<A.Report>>)

  const INIT_NODE: Node := Node(A.INIT, map[], map[])

  /** `holders`: the capture in office in each term so far; the other fields are as in
      `TermProtocol`. */
  datatype System = System(
    rev: nat,
    holders: map<nat, CaptureID>,
    unticked: bool,
    owner: D.Dispatcher,
    nodes: map<CaptureID, Node>,
    down: set<CaptureID>,
    dropped: set<CaptureID>,
    contacted: set<CaptureID>)

  function Init(h: CaptureID): System {
    System(1, map[1 := h], true, D.INIT, map[], {}, {}, {})
  }

  datatype Event =
    | OwnerActs(action: D.OwnerAction)
    | AgentActs(captureID: CaptureID, act: A.AgentAction)
    | DeliverToAgent(captureID: CaptureID, rev: nat)
    | DeliverToOwner(captureID: CaptureID)
    | CaptureDown(captureID: CaptureID)
    | Elect(rev: nat, captureID: CaptureID)

  function NodeOf(s: System, c: CaptureID): Node {
    if c in s.nodes then s.nodes[c] else INIT_NODE
  }

  function HolderOf(s: System, rev: nat): CaptureID {
    if rev in s.holders then s.holders[rev] else 0
  }

  /** The reports of a capture in flight to the capture that is in office now. */
  function BoxOf(s: System, c: CaptureID): seq<A.Report> {
    T.Chan(NodeOf(s, c).outbox, HolderOf(s, s.rev))
  }

  /** What the capture list handed to a tick promises: it has every live capture that
      an owner ever sent to, what left it is down, and IDs are not reused. */
  predicate ListOk(s: System, captures: set<CaptureID>) {
    && s.contacted - s.down <= captures
    && s.owner.captures - captures <= s.down
    && captures !! s.dropped
  }

  ghost predicate Enabled(s: System, e: Event) {
    match e
    case OwnerActs(a) => D.Enabled(s.owner, a) && (a.Refresh? ==> ListOk(s, a.captures))
    case AgentActs(c, act) => A.Enabled(NodeOf(s, c).agent, act)
    case DeliverToAgent(c, rev) => T.Chan(NodeOf(s, c).inbox, rev) != []
    case DeliverToOwner(c) => BoxOf(s, c) != [] && D.OnMessage(s.owner, c, BoxOf(s, c)[0].msg).Done?
    case CaptureDown(_) => true
    case Elect(rev, _) => rev > s.rev
  }

  function Posted(s: System, mail: seq<D.Envelope>): System {
    if mail == [] then s
    else
      var c := mail[0].to;
      var n := NodeOf(s, c);
      s.(nodes := s.nodes[c := n.(inbox := n.inbox[s.rev := T.Chan(n.inbox, s.rev) + [mail[0].msg]])],
         contacted := s.contacted + {c})
  }

  /** Where a report goes is decided by who holds the term that the agent follows. */
  function Reported(s: System, n: Node, mail: seq<A.Report>): Node {
    if mail == [] then n
    else
      var h := HolderOf(s, mail[0].rev);
      n.(outbox := n.outbox[h := T.Chan(n.outbox, h) + [mail[0]]])
  }

  ghost function Step(s: System, e: Event): System
    requires Enabled(s, e)
  {
    match e
    case OwnerActs(a) =>
      var t := Posted(s, D.Sends(s.owner, a)).(owner := D.Step(s.owner, a));
      if a.Refresh? then
        t.(unticked := false, dropped := s.dropped + ((s.owner.captures + s.contacted) - a.captures))
      else t
    case AgentActs(c, act) =>
      var n := NodeOf(s, c);
      s.(nodes := s.nodes[c := Reported(s, n, A.Sends(n.agent, act)).(agent := A.Step(n.agent, act))])
    case DeliverToAgent(c, rev) =>
      var n := NodeOf(s, c);
      var box := T.Chan(n.inbox, rev);
      s.(nodes := s.nodes[c := n.(agent := A.OnOwnerMsg(n.agent, rev, box[0]), inbox := n.inbox[rev := box[1..]])])
    case DeliverToOwner(c) =>
      var n := NodeOf(s, c);
      var box := BoxOf(s, c);
      s.(owner := D.OnMessage(s.owner, c, box[0].msg).value,
         nodes := s.nodes[c := n.(outbox := n.outbox[HolderOf(s, s.rev) := box[1..]])])
    case CaptureDown(c) => s.(down := s.down + {c})
    case Elect(rev, c) => s.(rev := rev, holders := s.holders[rev := c], unticked := true, owner := D.INIT)
  }

  // ----- Safety -----

  /** No table is in the executors of two captures, unless an owner has seen one leave. */
  ghost predicate Safe(s: System) {
    forall c, c', t :: c !in s.dropped && c' !in s.dropped ==>
      t in NodeOf(s, c).agent.exec && t in NodeOf(s, c').agent.exec ==> c == c'
  }

  /** The owner does not panic on the next report of any capture. */
  ghost predicate NoPanic(s: System) {
    forall c :: BoxOf(s, c) != [] ==> D.OnMessage(s.owner, c, BoxOf(s, c)[0].msg).Done?
  }

  /** No agent meets a second operation on a table it is working on. */
  ghost predicate NoDuplicates(s: System) {
    forall c :: c !in s.dropped ==> A.NoDuplicates(NodeOf(s, c).agent.pending, NodeOf(s, c).agent.ops)
  }

  /** What is dropped is down, so this is about all live captures. */
  ghost predicate Good(s: System) {
    Safe(s) && NoPanic(s) && NoDuplicates(s) && s.dropped <= s.down
  }

  // ----- Taking office -----

  /** The capture has, or is about to get, or will be told to do something with the table. */
  ghost predicate Holds(n: Node, t: TableID) {
    t in n.agent.exec || t in n.agent.ops || T.Queued(n.agent.pending + T.OpsOf(T.Chan(n.inbox, n.agent.ownerRev)), t)
  }

  /** The agent is yet to answer an Announce that `h` sent in a term before `rev`. */
  ghost predicate Owes(s: System, d: CaptureID, h: CaptureID, rev: nat) {
    var n := NodeOf(s, d);
    || (0 < n.agent.ownerRev < rev && n.agent.needSync && HolderOf(s, n.agent.ownerRev) == h)
    || exists r {:trigger T.Chan(n.inbox, r)} ::
         n.agent.ownerRev < r < rev && HolderOf(s, r) == h && T.Chan(n.inbox, r) != []
  }

  /** The report does no harm when it reaches a later term: it is no Sync, and the table is
      with no other capture. */
  ghost predicate Harmless(s: System, d: CaptureID, m: AgentMsg) {
    && m.Finish?
    && forall c {:trigger NodeOf(s, c)} :: c !in s.dropped && c != d ==> !Holds(NodeOf(s, c), m.tableID)
  }

  /** The capture can take office: of its earlier terms no Sync is in flight or due, and no
      other report that could be taken for one of another capture's tables. */
  ghost predicate ClearFor(s: System, d: CaptureID, h: CaptureID) {
    && (forall i :: 0 <= i < |T.Chan(NodeOf(s, d).outbox, h)| ==> Harmless(s, d, T.Chan(NodeOf(s, d).outbox, h)[i].msg))
    && !Owes(s, d, h, s.rev + 1)
  }

  ghost predicate Clear(s: System, h: CaptureID) {
    forall d {:trigger ClearFor(s, d, h)} :: d !in s.dropped ==> ClearFor(s, d, h)
  }

  // ----- Following the system with channels for each term -----

  /** The reports meant for one term. */
  function OfTerm(box: seq<A.Report>, rev: nat): seq<AgentMsg> {
    if box == [] then [] else (if box[0].rev == rev then [box[0].msg] else []) + OfTerm(box[1..], rev)
  }

  lemma {:induction false} OfTermSnoc(box: seq<A.Report>, m: A.Report, rev: nat)
    ensures OfTerm(box + [m], rev) == OfTerm(box, rev) + (if m.rev == rev then [m.msg] else [])
  {
    if box == [] {
      assert [m][1..] == [];
    } else {
      assert (box + [m])[1..] == box[1..] + [m];
      OfTermSnoc(box[1..], m, rev);
    }
  }

  lemma {:induction false} NoneOfTerm(box: seq<A.Report>, rev: nat)
    requires forall i :: 0 <= i < |box| ==> box[i].rev != rev
    ensures OfTerm(box, rev) == []
  {
    if box != [] {
      NoneOfTerm(box[1..], rev);
    }
  }

  ghost predicate NodeFollows(s: System, o: T.System, c: CaptureID) {
    var n, m := NodeOf(s, c), T.NodeOf(o, c);
    && m.agent == n.agent && m.inbox == n.inbox
    && (c !in s.dropped ==> T.Chan(m.outbox, s.rev) == OfTerm(BoxOf(s, c), s.rev))
  }

  ghost predicate Follows(s: System, o: T.System) {
    && o == T.System(s.rev, s.unticked, s.owner, o.nodes, s.down, s.dropped, s.contacted)
    && forall c {:trigger NodeFollows(s, o, c)} :: NodeFollows(s, o, c)
  }

  /** Reports are in the order of the terms they were meant for, which the agent does not fall
      behind. */
  ghost predicate InOrder(box: seq<A.Report>, top: nat) {
    && (forall i, j :: 0 <= i < j < |box| ==> box[i].rev <= box[j].rev)
    && (forall i :: 0 <= i < |box| ==> box[i].rev <= top)
  }

  ghost predicate BoxesOk(n: Node) {
    forall h {:trigger T.Chan(n.outbox, h)} :: InOrder(T.Chan(n.outbox, h), n.agent.target)
  }

  /** Nobody but the sender has anything to do with the table. */
  ghost predicate OnlyItsOwn(o: T.System, d: CaptureID, t: TableID) {
    && t !in o.owner.tables
    && forall c {:trigger T.Claimed(o, c, t)} :: c !in o.dropped && c != d ==> !T.Claimed(o, c, t)
  }

  ghost predicate LateOk(o: T.System, d: CaptureID, r: A.Report) {
    r.rev < o.rev ==> r.msg.Finish? && OnlyItsOwn(o, d, r.msg.tableID) && !T.StageOf(o.owner, d).Synced?
  }

  /** Reports of earlier terms of the capture in office are harmless and come before the Sync. */
  ghost predicate AllLateOk(s: System, o: T.System, d: CaptureID) {
    forall i :: 0 <= i < |BoxOf(s, d)| ==> LateOk(o, d, BoxOf(s, d)[i])
  }

  predicate Untouched(n: Node) {
    n.agent.ownerRev == 0 && n.agent.target == 0 && n.inbox == map[] && n.outbox == map[]
  }

  ghost predicate MailOk(s: System, o: T.System, d: CaptureID) {
    && BoxesOk(NodeOf(s, d))
    && AllLateOk(s, o, d)
    && !Owes(s, d, HolderOf(s, s.rev), s.rev)
    && (d !in s.contacted ==> Untouched(NodeOf(s, d)))
  }

  ghost predicate AllMailOk(s: System, o: T.System) {
    forall d {:trigger MailOk(s, o, d)} :: d !in s.dropped ==> MailOk(s, o, d)
  }

  ghost predicate Inv(s: System, o: T.System) {
    T.Inv(o) && Follows(s, o) && AllMailOk(s, o)
  }

  // ----- Late reports stay harmless -----

  lemma LateKept(o: T.System, e: T.Event, d: CaptureID, r: A.Report)
    requires T.Inv(o) && T.Enabled(o, e) && !T.IsDispatch(e) && !e.Elect? && LateOk(o, d, r)
    requires e.DeliverToOwner? ==> e.captureID != d && e.captureID !in o.dropped
    ensures LateOk(T.Step(o, e), d, r)
  {
    if r.rev < o.rev {
      var o', t := T.Step(o, e), r.msg.tableID;
      if t in o'.owner.tables {
        assert e.DeliverToOwner?;
        T.RecordsAreClaimed(o, e.captureID, t);
      }
      forall c | c !in o'.dropped && c != d ensures !T.Claimed(o', c, t) {
        if T.Claimed(o', c, t) {
          T.StepShrinks(o, e, c, t);
        }
      }
    }
  }

  /** A dispatch finds no late reports: it waits for the Sync of every capture that was ever
      sent to, and late reports come before that. */
  lemma NothingLate(s: System, o: T.System, d: CaptureID, i: nat)
    requires Inv(s, o) && D.AllSynced(s.owner) && !s.unticked && d !in s.dropped && i < |BoxOf(s, d)|
    ensures BoxOf(s, d)[i].rev >= s.rev
  {
    assert MailOk(s, o, d);
    assert LateOk(o, d, BoxOf(s, d)[i]);
    assert d in s.contacted;
  }

  // ----- Steps of the owner -----

  lemma DispatchTicked(o: T.System, e: T.Event)
    requires T.Inv(o) && T.Enabled(o, e) && T.IsDispatch(e)
    ensures !o.unticked && D.AllSynced(o.owner)
  {
  }

  lemma OwesKept(s: System, s': System, d: CaptureID, h: CaptureID, rev: nat)
    requires NodeOf(s', d).agent.ownerRev == NodeOf(s, d).agent.ownerRev
    requires NodeOf(s', d).agent.needSync ==> NodeOf(s, d).agent.needSync
    requires forall r :: 0 < r < rev ==>
               && HolderOf(s', r) == HolderOf(s, r)
               && (T.Chan(NodeOf(s', d).inbox, r) != [] ==> T.Chan(NodeOf(s, d).inbox, r) != [])
    requires Owes(s', d, h, rev)
    ensures Owes(s, d, h, rev)
  {
    var n, n' := NodeOf(s, d), NodeOf(s', d);
    if !(0 < n'.agent.ownerRev < rev && n'.agent.needSync && HolderOf(s', n'.agent.ownerRev) == h) {
      var r :| n'.agent.ownerRev < r < rev && HolderOf(s', r) == h && T.Chan(n'.inbox, r) != [];
      assert T.Chan(n.inbox, r) != [];
    }
  }

  /** An action of the owner adds to inboxes at the end, in the present term only. */
  lemma PostedMail(s: System, a: D.OwnerAction, d: CaptureID)
    requires Enabled(s, OwnerActs(a))
    ensures var n, n' := NodeOf(s, d), NodeOf(Step(s, OwnerActs(a)), d);
            && n'.agent == n.agent && n'.outbox == n.outbox
            && (forall r :: r != s.rev ==> T.Chan(n'.inbox, r) == T.Chan(n.inbox, r))
            && (d !in Step(s, OwnerActs(a)).contacted ==> n' == n)
  {
  }

  /** The system with one node replaced. */
  lemma OneNodeFollows(s: System, o: T.System, c: CaptureID, n: Node, m: T.Node)
    requires Follows(s, o) && m.agent == n.agent && m.inbox == n.inbox
    requires c !in s.dropped ==> T.Chan(m.outbox, s.rev) == OfTerm(T.Chan(n.outbox, HolderOf(s, s.rev)), s.rev)
    ensures Follows(s.(nodes := s.nodes[c := n]), o.(nodes := o.nodes[c := m]))
  {
    var s', o' := s.(nodes := s.nodes[c := n]), o.(nodes := o.nodes[c := m]);
    forall d ensures NodeFollows(s', o', d) {
      assert NodeFollows(s, o, d);
    }
  }

  lemma PostedFollows(s: System, o: T.System, mail: seq<D.Envelope>)
    requires Follows(s, o)
    ensures Follows(Posted(s, mail), T.Posted(o, mail))
  {
    if mail != [] {
      var c := mail[0].to;
      assert NodeFollows(s, o, c);
      OneNodeFollows(s, o, c, NodeOf(Posted(s, mail), c), T.NodeOf(T.Posted(o, mail), c));
      ContactedFollows(Posted(s, mail).(contacted := s.contacted), T.Posted(o, mail).(contacted := s.contacted),
                       s.contacted + {c});
    }
  }

  lemma ContactedFollows(s: System, o: T.System, contacted: set<CaptureID>)
    requires Follows(s, o)
    ensures Follows(s.(contacted := contacted), o.(contacted := contacted))
  {
    var s', o' := s.(contacted := contacted), o.(contacted := contacted);
    forall c ensures NodeFollows(s', o', c) {
      assert NodeFollows(s, o, c);
    }
  }

  /** The owner's own state, and captures dropped, have no part in the mail. */
  lemma FieldsFollow(s: System, o: T.System, owner: D.Dispatcher, unticked: bool, dropped: set<CaptureID>)
    requires Follows(s, o) && s.dropped <= dropped
    ensures Follows(s.(owner := owner, unticked := unticked, dropped := dropped),
                    o.(owner := owner, unticked := unticked, dropped := dropped))
  {
    var s', o' := s.(owner := owner, unticked := unticked, dropped := dropped),
                  o.(owner := owner, unticked := unticked, dropped := dropped);
    forall c ensures NodeFollows(s', o', c) {
      assert NodeFollows(s, o, c);
    }
  }

  lemma OwnerActsFollows(s: System, o: T.System, a: D.OwnerAction)
    requires Follows(s, o) && Enabled(s, OwnerActs(a))
    ensures T.Enabled(o, T.OwnerActs(a)) && Follows(Step(s, OwnerActs(a)), T.Step(o, T.OwnerActs(a)))
  {
    var mail, owner := D.Sends(s.owner, a), D.Step(s.owner, a);
    PostedFollows(s, o, mail);
    if a.Refresh? {
      FieldsFollow(Posted(s, mail), T.Posted(o, mail), owner, false,
                   s.dropped + ((s.owner.captures + s.contacted) - a.captures));
    } else {
      FieldsFollow(Posted(s, mail), T.Posted(o, mail), owner, s.unticked, s.dropped);
    }
  }

  lemma OwnerMail(s: System, o: T.System, a: D.OwnerAction, d: CaptureID)
    requires Inv(s, o) && Enabled(s, OwnerActs(a)) && T.Enabled(o, T.OwnerActs(a)) && d !in s.dropped
    ensures MailOk(Step(s, OwnerActs(a)), T.Step(o, T.OwnerActs(a)), d)
  {
    var s' := Step(s, OwnerActs(a));
    assert MailOk(s, o, d);
    OwnerLate(s, o, a, d);
    PostedMail(s, a, d);
    if Owes(s', d, HolderOf(s', s'.rev), s'.rev) {
      OwesKept(s, s', d, HolderOf(s, s.rev), s.rev);
    }
  }

  lemma OwnerActsOk(s: System, o: T.System, a: D.OwnerAction)
    requires Inv(s, o) && Enabled(s, OwnerActs(a))
    ensures T.Enabled(o, T.OwnerActs(a)) && Inv(Step(s, OwnerActs(a)), T.Step(o, T.OwnerActs(a)))
  {
    OwnerActsFollows(s, o, a);
    T.StepOk(o, T.OwnerActs(a));
    forall d | d !in Step(s, OwnerActs(a)).dropped ensures MailOk(Step(s, OwnerActs(a)), T.Step(o, T.OwnerActs(a)), d) {
      OwnerMail(s, o, a, d);
    }
  }

  lemma OwnerLate(s: System, o: T.System, a: D.OwnerAction, d: CaptureID)
    requires Inv(s, o) && Enabled(s, OwnerActs(a)) && T.Enabled(o, T.OwnerActs(a)) && d !in s.dropped
    ensures AllLateOk(Step(s, OwnerActs(a)), T.Step(o, T.OwnerActs(a)), d)
  {
    var s', o' := Step(s, OwnerActs(a)), T.Step(o, T.OwnerActs(a));
    assert BoxOf(s', d) == BoxOf(s, d);
    assert MailOk(s, o, d);
    forall i | 0 <= i < |BoxOf(s', d)| ensures LateOk(o', d, BoxOf(s', d)[i]) {
      if T.IsDispatch(T.OwnerActs(a)) {
        DispatchTicked(o, T.OwnerActs(a));
        NothingLate(s, o, d, i);
      } else {
        LateKept(o, T.OwnerActs(a), d, BoxOf(s, d)[i]);
      }
    }
  }

  // ----- Steps of an agent -----

  /** An agent reports to the term it then follows, and never goes back to an earlier one. */
  lemma AgentFollowsOn(a: A.Agent, act: A.AgentAction)
    requires A.Enabled(a, act) && a.target <= a.ownerRev
    ensures var a' := A.Step(a, act);
            && a.target <= a'.target && a'.ownerRev == a.ownerRev && (a'.needSync ==> a.needSync)
            && (A.Sends(a, act) != [] ==>
                  a'.target > 0 && A.Sends(a, act) == [A.Report(a'.target, A.Sends(a, act)[0].msg)])
  {
  }

  lemma ReportedMail(s: System, n: Node, m: T.Node, mail: seq<A.Report>)
    requires |mail| <= 1 && T.Chan(m.outbox, s.rev) == OfTerm(T.Chan(n.outbox, HolderOf(s, s.rev)), s.rev)
    ensures var n', m' := Reported(s, n, mail), T.Reported(m, mail);
            T.Chan(m'.outbox, s.rev) == OfTerm(T.Chan(n'.outbox, HolderOf(s, s.rev)), s.rev)
  {
    if mail != [] {
      OfTermSnoc(T.Chan(n.outbox, HolderOf(s, s.rev)), mail[0], s.rev);
    }
  }

  lemma ReportFollows(s: System, o: T.System, c: CaptureID, act: A.AgentAction)
    requires Follows(s, o) && Enabled(s, AgentActs(c, act))
    ensures T.Enabled(o, T.AgentActs(c, act)) && Follows(Step(s, AgentActs(c, act)), T.Step(o, T.AgentActs(c, act)))
  {
    assert NodeFollows(s, o, c);
    var n, m := NodeOf(s, c), T.NodeOf(o, c);
    var mail, a := A.Sends(n.agent, act), A.Step(n.agent, act);
    if c !in s.dropped {
      ReportedMail(s, n, m, mail);
    }
    OneNodeFollows(s, o, c, Reported(s, n, mail).(agent := a), T.Reported(m, mail).(agent := a));
  }

  /** What an agent sends to the capture in office in the name of an earlier term. */
  lemma LateSend(s: System, o: T.System, c: CaptureID, act: A.AgentAction)
    requires Inv(s, o) && Enabled(s, AgentActs(c, act)) && T.Enabled(o, T.AgentActs(c, act)) && c !in s.dropped
    requires A.Sends(NodeOf(s, c).agent, act) != []
    requires HolderOf(s, A.Sends(NodeOf(s, c).agent, act)[0].rev) == HolderOf(s, s.rev)
    ensures LateOk(T.Step(o, T.AgentActs(c, act)), c, A.Sends(NodeOf(s, c).agent, act)[0])
  {
    var o', a, r := T.Step(o, T.AgentActs(c, act)), NodeOf(s, c).agent, A.Sends(NodeOf(s, c).agent, act)[0];
    assert MailOk(s, o, c) && NodeFollows(s, o, c) && T.Tracked(o, c);
    if r.rev < s.rev {
      assert !(0 < a.ownerRev < s.rev && a.needSync && HolderOf(s, a.ownerRev) == HolderOf(s, s.rev));
      assert act.SendFinish?;
      var t := act.tableID;
      assert T.Claimed(o, c, t);
      assert T.RecordsOf(o.owner.tables, c) == map[];
      assert t !in o.owner.tables;
      forall d | d !in o'.dropped && d != c ensures !T.Claimed(o', d, t) {
        if T.Claimed(o', d, t) {
          T.StepShrinks(o, T.AgentActs(c, act), d, t);
        }
      }
    }
  }

  lemma AgentLate(s: System, o: T.System, c: CaptureID, act: A.AgentAction, d: CaptureID)
    requires Inv(s, o) && Enabled(s, AgentActs(c, act)) && T.Enabled(o, T.AgentActs(c, act)) && d !in s.dropped
    ensures AllLateOk(Step(s, AgentActs(c, act)), T.Step(o, T.AgentActs(c, act)), d)
  {
    var s', o' := Step(s, AgentActs(c, act)), T.Step(o, T.AgentActs(c, act));
    var mail := A.Sends(NodeOf(s, c).agent, act);
    assert MailOk(s, o, d);
    forall i | 0 <= i < |BoxOf(s', d)| ensures LateOk(o', d, BoxOf(s', d)[i]) {
      if i < |BoxOf(s, d)| {
        assert BoxOf(s', d)[i] == BoxOf(s, d)[i];
        LateKept(o, T.AgentActs(c, act), d, BoxOf(s, d)[i]);
      } else {
        assert d == c && mail != [] && BoxOf(s', d)[i] == mail[0];
        LateSend(s, o, c, act);
      }
    }
  }

  lemma AgentBoxes(s: System, n: Node, act: A.AgentAction)
    requires BoxesOk(n) && A.Enabled(n.agent, act) && n.agent.target <= n.agent.ownerRev
    ensures BoxesOk(Reported(s, n, A.Sends(n.agent, act)).(agent := A.Step(n.agent, act)))
  {
    AgentFollowsOn(n.agent, act);
    var n' := Reported(s, n, A.Sends(n.agent, act)).(agent := A.Step(n.agent, act));
    forall h ensures InOrder(T.Chan(n'.outbox, h), n'.agent.target) {
      assert InOrder(T.Chan(n.outbox, h), n.agent.target);
    }
  }

  /** An agent that no owner has sent to has nothing to send. */
  lemma UntouchedActs(s: System, n: Node, act: A.AgentAction)
    requires Untouched(n) && A.Enabled(n.agent, act)
    ensures Untouched(Reported(s, n, A.Sends(n.agent, act)).(agent := A.Step(n.agent, act)))
  {
  }

  lemma AgentOwes(s: System, c: CaptureID, act: A.AgentAction, d: CaptureID)
    requires Enabled(s, AgentActs(c, act)) && NodeOf(s, c).agent.target <= NodeOf(s, c).agent.ownerRev
    requires Owes(Step(s, AgentActs(c, act)), d, HolderOf(s, s.rev), s.rev)
    ensures Owes(s, d, HolderOf(s, s.rev), s.rev)
  {
    AgentFollowsOn(NodeOf(s, c).agent, act);
    OwesKept(s, Step(s, AgentActs(c, act)), d, HolderOf(s, s.rev), s.rev);
  }

  lemma AgentMail(s: System, o: T.System, c: CaptureID, act: A.AgentAction, d: CaptureID)
    requires Inv(s, o) && Enabled(s, AgentActs(c, act)) && T.Enabled(o, T.AgentActs(c, act)) && d !in s.dropped
    ensures MailOk(Step(s, AgentActs(c, act)), T.Step(o, T.AgentActs(c, act)), d)
  {
    var s' := Step(s, AgentActs(c, act));
    AgentLate(s, o, c, act, d);
    if d == c {
      AgentOwnMail(s, o, c, act);
    } else {
      assert MailOk(s, o, d);
      assert NodeOf(s', d) == NodeOf(s, d);
      if Owes(s', d, HolderOf(s, s.rev), s.rev) { OwesKept(s, s', d, HolderOf(s, s.rev), s.rev); }
    }
  }

  lemma AgentOwnMail(s: System, o: T.System, c: CaptureID, act: A.AgentAction)
    requires Inv(s, o) && Enabled(s, AgentActs(c, act)) && c !in s.dropped
    ensures var s' := Step(s, AgentActs(c, act));
            && BoxesOk(NodeOf(s', c)) && !Owes(s', c, HolderOf(s, s.rev), s.rev)
            && (c !in s.contacted ==> Untouched(NodeOf(s', c)))
  {
    assert MailOk(s, o, c) && T.Tracked(o, c) && NodeFollows(s, o, c);
    AgentBoxes(s, NodeOf(s, c), act);
    if c !in s.contacted { UntouchedActs(s, NodeOf(s, c), act); }
    if Owes(Step(s, AgentActs(c, act)), c, HolderOf(s, s.rev), s.rev) { AgentOwes(s, c, act, c); }
  }

  lemma AgentActsOk(s: System, o: T.System, c: CaptureID, act: A.AgentAction)
    requires Inv(s, o) && Enabled(s, AgentActs(c, act))
    ensures T.Enabled(o, T.AgentActs(c, act)) && Inv(Step(s, AgentActs(c, act)), T.Step(o, T.AgentActs(c, act)))
  {
    ReportFollows(s, o, c, act);
    T.StepOk(o, T.AgentActs(c, act));
    forall d | d !in s.dropped ensures MailOk(Step(s, AgentActs(c, act)), T.Step(o, T.AgentActs(c, act)), d) {
      AgentMail(s, o, c, act, d);
    }
  }

  // ----- Messages to an agent -----

  lemma ToAgentFollows(s: System, o: T.System, c: CaptureID, rev: nat)
    requires Follows(s, o) && Enabled(s, DeliverToAgent(c, rev))
    ensures T.Enabled(o, T.DeliverToAgent(c, rev))
    ensures Follows(Step(s, DeliverToAgent(c, rev)), T.Step(o, T.DeliverToAgent(c, rev)))
  {
    assert NodeFollows(s, o, c);
    var s', o' := Step(s, DeliverToAgent(c, rev)), T.Step(o, T.DeliverToAgent(c, rev));
    OneNodeFollows(s, o, c, NodeOf(s', c), T.NodeOf(o', c));
  }

  /** An Announce of an earlier term, once heard, was in flight before. */
  lemma HeardOwes(s: System, o: T.System, c: CaptureID, rev: nat)
    requires Inv(s, o) && Enabled(s, DeliverToAgent(c, rev)) && c !in s.dropped
    requires Owes(Step(s, DeliverToAgent(c, rev)), c, HolderOf(s, s.rev), s.rev)
    ensures Owes(s, c, HolderOf(s, s.rev), s.rev)
  {
    assert T.Tracked(o, c) && NodeFollows(s, o, c);
    var s', h := Step(s, DeliverToAgent(c, rev)), HolderOf(s, s.rev);
    var n, n' := NodeOf(s, c), NodeOf(s', c);
    if rev <= n.agent.ownerRev {
      OwesKept(s, s', c, h, s.rev);
    } else if 0 < rev < s.rev && HolderOf(s, rev) == h {
      assert T.Chan(n.inbox, rev) != [];
    } else {
      var r :| n'.agent.ownerRev < r < s.rev && HolderOf(s', r) == h && T.Chan(n'.inbox, r) != [];
      assert T.Chan(n.inbox, r) != [];
    }
  }

  lemma ToAgentMail(s: System, o: T.System, c: CaptureID, rev: nat, d: CaptureID)
    requires Inv(s, o) && Enabled(s, DeliverToAgent(c, rev)) && T.Enabled(o, T.DeliverToAgent(c, rev))
             && d !in s.dropped
    ensures MailOk(Step(s, DeliverToAgent(c, rev)), T.Step(o, T.DeliverToAgent(c, rev)), d)
  {
    var s', o' := Step(s, DeliverToAgent(c, rev)), T.Step(o, T.DeliverToAgent(c, rev));
    assert MailOk(s, o, d);
    assert NodeOf(s', d).outbox == NodeOf(s, d).outbox && NodeOf(s', d).agent.target == NodeOf(s, d).agent.target;
    forall i | 0 <= i < |BoxOf(s', d)| ensures LateOk(o', d, BoxOf(s', d)[i]) {
      LateKept(o, T.DeliverToAgent(c, rev), d, BoxOf(s, d)[i]);
    }
    if Owes(s', d, HolderOf(s, s.rev), s.rev) {
      if d == c { HeardOwes(s, o, c, rev); } else { OwesKept(s, s', d, HolderOf(s, s.rev), s.rev); }
    }
  }

  lemma DeliverToAgentOk(s: System, o: T.System, c: CaptureID, rev: nat)
    requires Inv(s, o) && Enabled(s, DeliverToAgent(c, rev))
    ensures T.Enabled(o, T.DeliverToAgent(c, rev))
    ensures Inv(Step(s, DeliverToAgent(c, rev)), T.Step(o, T.DeliverToAgent(c, rev)))
  {
    ToAgentFollows(s, o, c, rev);
    T.StepOk(o, T.DeliverToAgent(c, rev));
    forall d | d !in s.dropped ensures MailOk(Step(s, DeliverToAgent(c, rev)), T.Step(o, T.DeliverToAgent(c, rev)), d) {
      ToAgentMail(s, o, c, rev, d);
    }
  }

  // ----- Reports to the owner -----

  /** Taking the first report out of a channel to the capture in office. */
  function Consumed(s: System, c: CaptureID): System
    requires BoxOf(s, c) != []
  {
    var n := NodeOf(s, c);
    s.(nodes := s.nodes[c := n.(outbox := n.outbox[HolderOf(s, s.rev) := BoxOf(s, c)[1..]])])
  }

  /** With one report less, a capture's mail is still in order. */
  lemma ConsumedMail(s: System, o: T.System, c: CaptureID, d: CaptureID)
    requires MailOk(s, o, d) && BoxOf(s, c) != []
    ensures MailOk(Consumed(s, c), o, d)
  {
    var s' := Consumed(s, c);
    forall i | 0 <= i < |BoxOf(s', d)| ensures LateOk(o, d, BoxOf(s', d)[i]) {
      assert BoxOf(s', d)[i] == BoxOf(s, d)[if d == c then i + 1 else i];
    }
    forall h ensures InOrder(T.Chan(NodeOf(s', d).outbox, h), NodeOf(s', d).agent.target) {
      assert InOrder(T.Chan(NodeOf(s, d).outbox, h), NodeOf(s, d).agent.target);
    }
    if Owes(s', d, HolderOf(s, s.rev), s.rev) { OwesKept(s, s', d, HolderOf(s, s.rev), s.rev); }
  }

  /** A report of a dropped capture is ignored, but that a Sync has its records forgotten. */
  lemma DroppedReport(s: System, o: T.System, c: CaptureID) returns (o': T.System)
    requires Inv(s, o) && Enabled(s, DeliverToOwner(c)) && c in s.dropped
    ensures Inv(Step(s, DeliverToOwner(c)), o')
  {
    var s' := Step(s, DeliverToOwner(c));
    o' := o.(owner := s'.owner);
    assert s'.owner == s.owner || s'.owner == s.owner.(tables := D.WithoutCapture(s.owner.tables, c));
    if s'.owner != s.owner { T.ForgetOk(o, c); }
    forall d ensures NodeFollows(s', o', d) {
      assert NodeFollows(s, o, d);
    }
    forall d | d !in s'.dropped ensures MailOk(s', o', d) {
      assert MailOk(s, o, d);
      assert NodeOf(s', d) == NodeOf(s, d);
      ShrunkOwner(s, o, s', o', d);
    }
  }

  lemma ShrunkOwner(s: System, o: T.System, s': System, o': T.System, d: CaptureID)
    requires MailOk(s, o, d) && NodeOf(s', d) == NodeOf(s, d)
    requires s' == s.(owner := s'.owner, nodes := s'.nodes) && o' == o.(owner := o'.owner)
    requires o'.owner == o.owner.(tables := o'.owner.tables) && o'.owner.tables.Keys <= o.owner.tables.Keys
    ensures MailOk(s', o', d)
  {
    forall i | 0 <= i < |BoxOf(s', d)| ensures LateOk(o', d, BoxOf(s', d)[i]) {
      assert LateOk(o, d, BoxOf(s, d)[i]);
      var t := if BoxOf(s, d)[i].msg.Finish? then BoxOf(s, d)[i].msg.tableID else 0;
      forall c ensures T.Claimed(o', c, t) == T.Claimed(o, c, t) {}
    }
    if Owes(s', d, HolderOf(s, s.rev), s.rev) { OwesKept(s, s', d, HolderOf(s, s.rev), s.rev); }
  }

  /** A report of an earlier term changes nothing. */
  lemma LateReport(s: System, o: T.System, c: CaptureID)
    requires Inv(s, o) && BoxOf(s, c) != [] && c !in s.dropped && BoxOf(s, c)[0].rev < s.rev
    ensures Enabled(s, DeliverToOwner(c)) && Inv(Step(s, DeliverToOwner(c)), o)
  {
    assert MailOk(s, o, c);
    assert LateOk(o, c, BoxOf(s, c)[0]);
    var s' := Step(s, DeliverToOwner(c));
    assert s' == Consumed(s, c);
    forall d ensures NodeFollows(s', o, d) {
      assert NodeFollows(s, o, d);
    }
    forall d | d !in s'.dropped ensures MailOk(s', o, d) {
      assert MailOk(s, o, d);
      ConsumedMail(s, o, c, d);
    }
  }

  lemma ReportDelivered(s: System, o: T.System, c: CaptureID)
    requires Inv(s, o) && Enabled(s, DeliverToOwner(c)) && c !in s.dropped && BoxOf(s, c)[0].rev == s.rev
    ensures T.Enabled(o, T.DeliverToOwner(c))
    ensures Follows(Step(s, DeliverToOwner(c)), T.Step(o, T.DeliverToOwner(c)))
  {
    assert NodeFollows(s, o, c);
    var s', o' := Step(s, DeliverToOwner(c)), T.Step(o, T.DeliverToOwner(c));
    OneNodeFollows(s, o, c, NodeOf(s', c), T.NodeOf(o', c));
    FieldsFollow(s'.(owner := s.owner), o'.(owner := o.owner), s'.owner, s.unticked, s.dropped);
  }

  lemma ReportMail(s: System, o: T.System, c: CaptureID, d: CaptureID)
    requires Inv(s, o) && Enabled(s, DeliverToOwner(c)) && T.Enabled(o, T.DeliverToOwner(c))
    requires c !in s.dropped && d !in s.dropped && BoxOf(s, c)[0].rev == s.rev
    ensures MailOk(Step(s, DeliverToOwner(c)), T.Step(o, T.DeliverToOwner(c)), d)
  {
    var s1, s', o' := Consumed(s, c), Step(s, DeliverToOwner(c)), T.Step(o, T.DeliverToOwner(c));
    assert MailOk(s, o, d);
    ConsumedMail(s, o, c, d);
    assert NodeOf(s', d) == NodeOf(s1, d);
    forall i | 0 <= i < |BoxOf(s', d)| ensures LateOk(o', d, BoxOf(s', d)[i]) {
      assert LateOk(o, d, BoxOf(s1, d)[i]);
      if d == c {
        assert InOrder(BoxOf(s, d), NodeOf(s, d).agent.target) && BoxOf(s', d)[i] == BoxOf(s, d)[i + 1];
      } else {
        LateKept(o, T.DeliverToOwner(c), d, BoxOf(s1, d)[i]);
      }
    }
    if Owes(s', d, HolderOf(s, s.rev), s.rev) { OwesKept(s1, s', d, HolderOf(s, s.rev), s.rev); }
  }

  lemma DeliverToOwnerOk(s: System, o: T.System, c: CaptureID) returns (o': T.System)
    requires Inv(s, o) && Enabled(s, DeliverToOwner(c))
    ensures Inv(Step(s, DeliverToOwner(c)), o')
  {
    if c in s.dropped {
      o' := DroppedReport(s, o, c);
    } else {
      TermsPassed(s, o, c);
      if BoxOf(s, c)[0].rev < s.rev {
        LateReport(s, o, c);
        o' := o;
      } else {
        ReportDelivered(s, o, c);
        o' := T.Step(o, T.DeliverToOwner(c));
        T.StepOk(o, T.DeliverToOwner(c));
        forall d | d !in s.dropped ensures MailOk(Step(s, DeliverToOwner(c)), o', d) {
          ReportMail(s, o, c, d);
        }
      }
    }
  }

  lemma TermsPassed(s: System, o: T.System, c: CaptureID)
    requires Inv(s, o) && c !in s.dropped
    ensures forall i :: 0 <= i < |BoxOf(s, c)| ==> BoxOf(s, c)[i].rev <= s.rev
  {
    assert MailOk(s, o, c) && NodeFollows(s, o, c) && T.Tracked(o, c);
    assert InOrder(BoxOf(s, c), NodeOf(s, c).agent.target);
  }

  // ----- Elections -----

  /** In a new term only what a capture holds is claimed. */
  lemma ClaimsAtElection(s: System, o: T.System, rev: nat, c: CaptureID, t: TableID)
    requires Inv(s, o) && rev > s.rev && c !in s.dropped && T.Claimed(T.Step(o, T.Elect(rev)), c, t)
    ensures Holds(NodeOf(s, c), t)
  {
    assert T.Tracked(o, c) && NodeFollows(s, o, c);
  }

  lemma NothingForTerm(n: Node, m: T.Node, now: nat, rev: nat, h: CaptureID)
    requires T.RevsOk(m, now) && m.agent == n.agent && BoxesOk(n) && rev > now
    ensures T.Chan(m.outbox, rev) == OfTerm(T.Chan(n.outbox, h), rev) == []
  {
    assert InOrder(T.Chan(n.outbox, h), n.agent.target);
    NoneOfTerm(T.Chan(n.outbox, h), rev);
  }

  lemma ElectFollows(s: System, o: T.System, rev: nat, h: CaptureID)
    requires Inv(s, o) && rev > s.rev
    ensures Follows(Step(s, Elect(rev, h)), T.Step(o, T.Elect(rev)))
  {
    var s', o' := Step(s, Elect(rev, h)), T.Step(o, T.Elect(rev));
    forall c ensures NodeFollows(s', o', c) {
      assert NodeFollows(s, o, c);
      if c !in s.dropped {
        assert MailOk(s, o, c) && T.Tracked(o, c);
        NothingForTerm(NodeOf(s, c), T.NodeOf(o, c), s.rev, rev, h);
      }
    }
  }

  lemma ElectOwes(s: System, o: T.System, rev: nat, h: CaptureID, d: CaptureID)
    requires Inv(s, o) && rev > s.rev && d !in s.dropped
    ensures Owes(Step(s, Elect(rev, h)), d, h, rev) <==> Owes(s, d, h, s.rev + 1)
  {
    assert NodeFollows(s, o, d) && T.Tracked(o, d);
    var s', n := Step(s, Elect(rev, h)), NodeOf(s, d);
    forall r ensures (n.agent.ownerRev < r < rev && HolderOf(s', r) == h && T.Chan(n.inbox, r) != [])
                     <==> (n.agent.ownerRev < r < s.rev + 1 && HolderOf(s, r) == h && T.Chan(n.inbox, r) != []) {}
  }

  lemma ElectMail(s: System, o: T.System, rev: nat, h: CaptureID, d: CaptureID)
    requires Inv(s, o) && rev > s.rev && d !in s.dropped && ClearFor(s, d, h)
    ensures MailOk(Step(s, Elect(rev, h)), T.Step(o, T.Elect(rev)), d)
  {
    var s', o' := Step(s, Elect(rev, h)), T.Step(o, T.Elect(rev));
    assert MailOk(s, o, d);
    ElectOwes(s, o, rev, h, d);
    forall i | 0 <= i < |BoxOf(s', d)| ensures LateOk(o', d, BoxOf(s', d)[i]) {
      var m := BoxOf(s', d)[i].msg;
      assert Harmless(s, d, m);
      forall c | c !in o'.dropped && c != d ensures !T.Claimed(o', c, m.tableID) {
        if T.Claimed(o', c, m.tableID) { ClaimsAtElection(s, o, rev, c, m.tableID); }
      }
    }
  }

  lemma ElectOk(s: System, o: T.System, rev: nat, h: CaptureID)
    requires Inv(s, o) && rev > s.rev && Clear(s, h)
    ensures Inv(Step(s, Elect(rev, h)), T.Step(o, T.Elect(rev)))
  {
    ElectFollows(s, o, rev, h);
    T.StepOk(o, T.Elect(rev));
    forall d | d !in s.dropped ensures MailOk(Step(s, Elect(rev, h)), T.Step(o, T.Elect(rev)), d) {
      assert ClearFor(s, d, h);
      ElectMail(s, o, rev, h, d);
    }
  }

  // ----- Every run -----

  lemma CaptureDownOk(s: System, o: T.System, c: CaptureID)
    requires Inv(s, o)
    ensures Inv(Step(s, CaptureDown(c)), T.Step(o, T.CaptureDown(c)))
  {
    var s', o' := Step(s, CaptureDown(c)), T.Step(o, T.CaptureDown(c));
    T.StepOk(o, T.CaptureDown(c));
    forall d ensures NodeFollows(s', o', d) {
      assert NodeFollows(s, o, d);
    }
    forall d | d !in s'.dropped ensures MailOk(s', o', d) {
      assert MailOk(s, o, d);
      forall i | 0 <= i < |BoxOf(s', d)| ensures LateOk(o', d, BoxOf(s', d)[i]) {
        LateKept(o, T.CaptureDown(c), d, BoxOf(s, d)[i]);
      }
      if Owes(s', d, HolderOf(s, s.rev), s.rev) { OwesKept(s, s', d, HolderOf(s, s.rev), s.rev); }
    }
  }

  /** The agent knows an owner, but has not heard from any. */
  predicate Unheard(a: A.Agent) {
    a.ownerRev == 0 && a.target > 0
  }

  /** A Sync that no owner has asked for does not go to the capture in office. */
  predicate Discreet(s: System, e: Event) {
    e.AgentActs? && e.act.SendSync? && e.captureID !in s.dropped && Unheard(NodeOf(s, e.captureID).agent) ==>
      HolderOf(s, NodeOf(s, e.captureID).agent.target) != HolderOf(s, s.rev)
  }

  /** The event can happen, and whoever takes office may. */
  ghost predicate Legitimate(s: System, e: Event) {
    Enabled(s, e) && (e.Elect? ==> Clear(s, e.captureID))
  }

  ghost predicate Allowed(s: System, e: Event) {
    Legitimate(s, e) && Discreet(s, e)
  }

  /** Every such event keeps the invariant. */
  lemma StepOk(s: System, o: T.System, e: Event) returns (o': T.System)
    requires Inv(s, o) && Allowed(s, e)
    ensures Inv(Step(s, e), o')
  {
    match e
    case OwnerActs(a) => OwnerActsOk(s, o, a); o' := T.Step(o, T.OwnerActs(a));
    case AgentActs(c, act) => AgentActsOk(s, o, c, act); o' := T.Step(o, T.AgentActs(c, act));
    case DeliverToAgent(c, rev) => DeliverToAgentOk(s, o, c, rev); o' := T.Step(o, T.DeliverToAgent(c, rev));
    case DeliverToOwner(c) => o' := DeliverToOwnerOk(s, o, c);
    case CaptureDown(c) => CaptureDownOk(s, o, c); o' := T.Step(o, T.CaptureDown(c));
    case Elect(rev, h) => ElectOk(s, o, rev, h); o' := T.Step(o, T.Elect(rev));
  }

  /** Where a run from `s` ends, or nothing if some event cannot happen. */
  ghost function After(s: System, events: seq<Event>): Outcome<System>
    decreases |events|
  {
    if events == [] then Done(s)
    else if Enabled(s, events[0]) then After(Step(s, events[0]), events[1..])
    else Panic
  }

  /** A run in which no capture takes office that may not. */
  ghost predicate Orderly(s: System, events: seq<Event>)
    decreases |events|
  {
    events == [] || (Legitimate(s, events[0]) && Orderly(Step(s, events[0]), events[1..]))
  }

  /** Nor does an agent speak that may not. */
  ghost predicate Clean(s: System, events: seq<Event>)
    decreases |events|
  {
    events == [] || (Allowed(s, events[0]) && Clean(Step(s, events[0]), events[1..]))
  }

  lemma InitInv(h: CaptureID)
    ensures Inv(Init(h), T.INIT)
  {
    T.InitInv();
    var s := Init(h);
    forall c ensures NodeFollows(s, T.INIT, c) {}
    forall d ensures MailOk(s, T.INIT, d) {}
  }

  lemma {:induction false} RunKeepsInv(s: System, o: T.System, events: seq<Event>) returns (o': T.System)
    requires Inv(s, o) && Clean(s, events)
    ensures After(s, events).Done? && Inv(After(s, events).value, o')
    decreases |events|
  {
    if events == [] {
      o' := o;
    } else {
      var o1 := StepOk(s, o, events[0]);
      o' := RunKeepsInv(Step(s, events[0]), o1, events[1..]);
    }
  }

  /** An agent that knows an owner has heard from it, so it may always speak. */
  lemma AllDiscreet(s: System, o: T.System, e: Event)
    requires Inv(s, o)
    ensures Discreet(s, e)
  {
    if e.AgentActs? && e.captureID !in s.dropped {
      assert T.Tracked(o, e.captureID) && NodeFollows(s, o, e.captureID);
    }
  }

  lemma {:induction false} OrderlyIsClean(s: System, o: T.System, events: seq<Event>)
    requires Inv(s, o) && Orderly(s, events)
    ensures Clean(s, events)
    decreases |events|
  {
    if events != [] {
      AllDiscreet(s, o, events[0]);
      var o1 := StepOk(s, o, events[0]);
      OrderlyIsClean(Step(s, events[0]), o1, events[1..]);
    }
  }

  lemma InvImpliesNoPanic(s: System, o: T.System, c: CaptureID)
    requires Inv(s, o) && BoxOf(s, c) != []
    ensures D.OnMessage(s.owner, c, BoxOf(s, c)[0].msg).Done?
  {
    if c in s.dropped {
      assert c !in s.owner.captures && c !in s.owner.status;
    } else {
      TermsPassed(s, o, c);
      if BoxOf(s, c)[0].rev < s.rev {
        LateReport(s, o, c);
      } else {
        assert NodeFollows(s, o, c);
        T.InvImpliesNoPanic(o);
      }
    }
  }

  lemma InvImpliesGood(s: System, o: T.System)
    requires Inv(s, o)
    ensures Good(s)
  {
    T.InvImpliesSafe(o);
    forall c, c', t | c !in s.dropped && c' !in s.dropped && t in NodeOf(s, c).agent.exec
      && t in NodeOf(s, c').agent.exec
      ensures c == c'
    {
      assert NodeFollows(s, o, c) && NodeFollows(s, o, c');
    }
    forall c | BoxOf(s, c) != [] ensures D.OnMessage(s.owner, c, BoxOf(s, c)[0].msg).Done? {
      InvImpliesNoPanic(s, o, c);
    }
    forall c | c !in s.dropped ensures A.NoDuplicates(NodeOf(s, c).agent.pending, NodeOf(s, c).agent.ops) {
      assert NodeFollows(s, o, c) && T.Tracked(o, c);
      var m := T.NodeOf(o, c);
      assert forall i :: 0 <= i < |m.agent.pending| ==> m.agent.pending[i] == T.Queue(m)[i];
    }
  }

  /** In every run, through owner failover and capture loss, with reports of old terms in flight,
      as long as no capture takes office again that may not: no table is in the executors of two
      live captures, the owner never panics on a report, and no live agent meets a second
      operation on a table it is working on. */
  lemma EveryRunIsSafe(h: CaptureID, events: seq<Event>)
    requires Orderly(Init(h), events)
    ensures After(Init(h), events).Done? && Good(After(Init(h), events).value)
  {
    InitInv(h);
    OrderlyIsClean(Init(h), T.INIT, events);
    var o := RunKeepsInv(Init(h), T.INIT, events);
    InvImpliesGood(After(Init(h), events).value, o);
  }
}
