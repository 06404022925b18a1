/** The scheduling system as it would be if every owner term had channels of its own,
    with the invariant behind its safety. In the true system reports are addressed to the
    owner's capture; `SchedulerProtocol` shows when it behaves like this one. */
module TermProtocol {
  import opened SchedulerTypes
  import D = DispatcherSpec
  import A = AgentSpec

  /** A capture's agent with the messages in flight from and to the owner of each revision. */
  datatype Node = Node(agent: A.Agent, inbox: map<nat, seq<OwnerMsg>>, outbox: map<nat, seq<AgentMsg>>)

  const INIT_NODE: Node := Node(A.INIT, map[], map[])

  /** `down`: captures whose registration is gone; `dropped`: captures some owner has
      seen leave its capture list; `contacted`: captures any owner ever sent to;
      `unticked`: the current owner has not ticked yet. */
  datatype System = System(
    rev: nat,
    unticked: bool,
    owner: D.Dispatcher,
    nodes: map<CaptureID, Node>,
    down: set<CaptureID>,
    dropped: set<CaptureID>,
    contacted: set<CaptureID>)

  const INIT: System := System(1, true, D.INIT, map[], {}, {}, {})

  datatype Event =
    | OwnerActs(action: D.OwnerAction)
    | AgentActs(captureID: CaptureID, act: A.AgentAction)
    | DeliverToAgent(captureID: CaptureID, rev: nat)
    | DeliverToOwner(captureID: CaptureID)
    | CaptureDown(captureID: CaptureID)
    | Elect(rev: nat)

  function Chan<M>(chans: map<nat, seq<M>>, rev: nat): seq<M> {
    if rev in chans then chans[rev] else []
  }

  function NodeOf(s: System, c: CaptureID): Node {
    if c in s.nodes then s.nodes[c] else INIT_NODE
  }

  /** What the capture list handed to a tick promises: it has every live capture that
      an owner ever sent to, what left it is down, and IDs are not reused. */
  predicate ListOk(s: System, captures: set<CaptureID>) {
    && s.contacted - s.down <= captures
    && s.owner.captures - captures <= s.down
    && captures !! s.dropped
  }

  ghost predicate Enabled(s: System, e: Event) {
    match e
    case OwnerActs(a) =>
      && D.Enabled(s.owner, a)
      && (a.Refresh? ==> ListOk(s, a.captures))
    case AgentActs(c, act) => A.Enabled(NodeOf(s, c).agent, act)
    case DeliverToAgent(c, rev) => Chan(NodeOf(s, c).inbox, rev) != []
    case DeliverToOwner(c) =>
      var box := Chan(NodeOf(s, c).outbox, s.rev);
      box != [] && D.OnMessage(s.owner, c, box[0]).Done?
    case CaptureDown(c) => true
    case Elect(rev) => rev > s.rev
  }

  function Posted(s: System, mail: seq<D.Envelope>): System {
    if mail == [] then s
    else
      var c := mail[0].to;
      var n := NodeOf(s, c);
      s.(nodes := s.nodes[c := n.(inbox := n.inbox[s.rev := Chan(n.inbox, s.rev) + [mail[0].msg]])],
         contacted := s.contacted + {c})
  }

  function Reported(n: Node, mail: seq<A.Report>): Node {
    if mail == [] then n
    else n.(outbox := n.outbox[mail[0].rev := Chan(n.outbox, mail[0].rev) + [mail[0].msg]])
  }

  ghost function Step(s: System, e: Event): System
    requires Enabled(s, e)
  {
    match e
    case OwnerActs(a) =>
      var t := Posted(s, D.Sends(s.owner, a)).(owner := D.Step(s.owner, a));
      if a.Refresh? then
        t.(unticked := false, dropped := s.dropped + ((s.owner.captures + s.contacted) - a.captures))
      else t
    case AgentActs(c, act) =>
      var n := NodeOf(s, c);
      s.(nodes := s.nodes[c := Reported(n, A.Sends(n.agent, act)).(agent := A.Step(n.agent, act))])
    case DeliverToAgent(c, rev) =>
      var n := NodeOf(s, c);
      var box := Chan(n.inbox, rev);
      s.(nodes := s.nodes[c := n.(agent := A.OnOwnerMsg(n.agent, rev, box[0]), inbox := n.inbox[rev := box[1..]])])
    case DeliverToOwner(c) =>
      var n := NodeOf(s, c);
      var box := Chan(n.outbox, s.rev);
      s.(owner := D.OnMessage(s.owner, c, box[0]).value,
         nodes := s.nodes[c := n.(outbox := n.outbox[s.rev := box[1..]])])
    case CaptureDown(c) => s.(down := s.down + {c})
    case Elect(rev) => s.(rev := rev, unticked := true, owner := D.INIT)
  }

  // ----- The invariant, capture by capture -----

  function OpsOf(box: seq<OwnerMsg>): seq<Op> {
    if box == [] then []
    else (if box[0].Dispatch? then [box[0].op] else []) + OpsOf(box[1..])
  }

  /** Operations the agent has yet to take over: those received, then those in flight. */
  function Queue(n: Node): seq<Op> {
    n.agent.pending + OpsOf(Chan(n.inbox, n.agent.ownerRev))
  }

  ghost predicate Queued(q: seq<Op>, t: TableID) {
    exists i :: 0 <= i < |q| && q[i].tableID == t
  }

  ghost predicate Mentioned(box: seq<AgentMsg>, t: TableID) {
    exists i :: 0 <= i < |box| &&
      (match box[i]
       case Sync(running, adding, removing) => t in running || t in adding || t in removing
       case Finish(u) => u == t)
  }

  /** The capture may still act on, or has yet to report to this owner, something about the table. */
  ghost predicate Claims(n: Node, rev: nat, t: TableID) {
    || t in n.agent.exec
    || t in n.agent.ops
    || Queued(Queue(n), t)
    || Mentioned(Chan(n.outbox, rev), t)
  }

  /** An agent's operations fit what its executor holds, and each table has at most one. */
  ghost predicate AgentOk(a: A.Agent, q: seq<Op>) {
    && A.NoDuplicates(q, a.ops)
    && (forall i :: 0 <= i < |q| ==> (q[i].isDelete <==> q[i].tableID in a.exec))
    && (forall t :: t in a.ops ==>
          (t in a.exec <==> if a.ops[t].isDelete then !a.ops[t].status.Finished? else !a.ops[t].status.Received?))
  }

  ghost predicate AllFinish(box: seq<AgentMsg>) {
    && (forall i :: 0 <= i < |box| ==> box[i].Finish?)
    && (forall i, j :: 0 <= i < j < |box| ==> box[i] != box[j])
  }

  ghost predicate Settled(status: TableStatus, a: A.Agent, q: seq<Op>, box: seq<AgentMsg>, t: TableID) {
    match status
    case RunningTable => Finish(t) !in box && t !in a.ops && !Queued(q, t)
    case AddingTable =>
      || (Finish(t) in box && t in a.exec)
      || (t in a.ops && !a.ops[t].isDelete)
      || (Queued(q, t) && t !in a.exec)
    case RemovingTable =>
      || (Finish(t) in box && t !in a.exec)
      || (t in a.ops && a.ops[t].isDelete)
      || (Queued(q, t) && t in a.exec)
  }

  /** The owner's records of a capture, read together with the replies in flight,
      are exactly what the capture holds and works on. */
  ghost predicate Linked(recs: map<TableID, TableRecord>, a: A.Agent, q: seq<Op>, box: seq<AgentMsg>) {
    && AllFinish(box)
    && (forall t :: t in recs <==> t in a.exec || t in a.ops || Queued(q, t) || Finish(t) in box)
    && (forall t :: Finish(t) in box ==> t !in a.ops && !Queued(q, t))
    && (forall t :: t in recs ==> Settled(recs[t].status, a, q, box, t))
  }

  datatype Stage = NotAnnounced | Waiting | Synced

  /** How far the current term has come with this capture. */
  ghost predicate StageOk(n: Node, rev: nat, c: CaptureID, stage: Stage, recs: map<TableID, TableRecord>) {
    var inbox, outbox, a := Chan(n.inbox, rev), Chan(n.outbox, rev), n.agent;
    match stage
    case NotAnnounced => recs == map[] && inbox == [] && outbox == [] && a.ownerRev < rev
    case Waiting =>
      && recs == map[]
      && (|| (inbox == [Announce] && outbox == [] && a.ownerRev < rev)
          || (inbox == [] && outbox == [] && a.ownerRev == rev && a.needSync && a.pending == [])
          || (&& inbox == [] && a.ownerRev == rev && !a.needSync && a.pending == []
              && |outbox| > 0 && outbox[0].Sync?
              && D.PairwiseDisjoint(outbox[0].running, outbox[0].adding, outbox[0].removing)
              && Linked(D.SyncRecords(c, outbox[0].running, outbox[0].adding, outbox[0].removing), a, [], outbox[1..])))
    case Synced => a.ownerRev == rev && !a.needSync && Linked(recs, a, Queue(n), outbox)
  }

  ghost predicate RevsOk(n: Node, rev: nat) {
    var a := n.agent;
    && a.target <= a.ownerRev <= rev
    && (a.target < a.ownerRev <==> a.ownerHasChanged)
    && (a.ownerHasChanged ==> a.needSync)
    && (forall r :: r > a.ownerRev ==> Chan(n.inbox, r) == [] || Chan(n.inbox, r) == [Announce])
    && (forall r :: r > rev ==> Chan(n.inbox, r) == [] && Chan(n.outbox, r) == [])
    && Announce !in Chan(n.inbox, a.ownerRev)
  }

  ghost predicate NodeOk(n: Node, rev: nat, c: CaptureID, stage: Stage, recs: map<TableID, TableRecord>) {
    && RevsOk(n, rev)
    && AgentOk(n.agent, Queue(n))
    && StageOk(n, rev, c, stage, recs)
  }

  function StageOf(d: D.Dispatcher, c: CaptureID): Stage {
    if c !in d.status || d.status[c].sync.Uninitialized? then NotAnnounced
    else if d.status[c].sync.SyncSent? then Waiting
    else Synced
  }

  function RecordsOf(tables: map<TableID, TableRecord>, c: CaptureID): (recs: map<TableID, TableRecord>)
    ensures forall t :: t in recs <==> t in tables && tables[t].captureID == c
    ensures forall t :: t in recs ==> recs[t] == tables[t]
  {
    tables - (tables.Keys - D.TablesOn(tables, c))
  }

  ghost predicate Tracked(s: System, c: CaptureID) {
    NodeOk(NodeOf(s, c), s.rev, c, StageOf(s.owner, c), RecordsOf(s.owner.tables, c))
  }

  ghost predicate NodesOk(s: System) {
    forall c {:trigger Tracked(s, c)} :: c !in s.dropped ==> Tracked(s, c)
  }

  ghost predicate Claimed(s: System, c: CaptureID, t: TableID) {
    Claims(NodeOf(s, c), s.rev, t)
  }

  ghost predicate ClaimsOk(s: System) {
    && (forall c, t {:trigger Claimed(s, c, t)} :: c !in s.dropped && Claimed(s, c, t) ==>
          c in s.contacted && (t in s.owner.tables ==> s.owner.tables[t].captureID == c))
    && (forall c, c', t {:trigger Claimed(s, c, t), Claimed(s, c', t)} :: c !in s.dropped && c' !in s.dropped ==>
          Claimed(s, c, t) && Claimed(s, c', t) ==> c == c')
  }

  ghost predicate ListsOk(s: System) {
    && s.rev > 0
    && s.dropped <= s.down
    && s.owner.captures !! s.dropped
    && s.owner.status.Keys == s.owner.captures
    && (s.unticked ==> s.owner.captures == {} && s.owner.tables == map[] && forall t :: !D.MoveReady(s.owner, t))
    && (!s.unticked ==> s.contacted <= s.owner.captures + s.dropped)
    && (forall t :: D.MoveReady(s.owner, t) ==> s.owner.jobs[t].target in s.owner.captures + s.dropped)
  }

  ghost predicate Inv(s: System) {
    NodesOk(s) && ClaimsOk(s) && ListsOk(s)
  }

  /** No two captures that are still listed, or were never seen to leave, hold the same table. */
  ghost predicate Safe(s: System) {
    forall c, c', t :: c !in s.dropped && c' !in s.dropped ==>
      t in NodeOf(s, c).agent.exec && t in NodeOf(s, c').agent.exec ==> c == c'
  }

  lemma InvImpliesSafe(s: System)
    requires Inv(s)
    ensures Safe(s)
  {
    forall c, c', t | c !in s.dropped && c' !in s.dropped
      && t in NodeOf(s, c).agent.exec && t in NodeOf(s, c').agent.exec
      ensures c == c'
    {
      assert Claimed(s, c, t) && Claimed(s, c', t);
    }
  }

  lemma InitInv()
    ensures Inv(INIT)
  {
  }

  // ----- Steps of one capture -----

  ghost predicate ClaimsShrink(n: Node, n': Node, rev: nat) {
    forall t :: Claims(n', rev, t) ==> Claims(n, rev, t)
  }

  lemma OpsOfAppend(box: seq<OwnerMsg>, m: OwnerMsg)
    ensures OpsOf(box + [m]) == OpsOf(box) + (if m.Dispatch? then [m.op] else [])
  {
    if box != [] {
      assert (box + [m])[1..] == box[1..] + [m];
      OpsOfAppend(box[1..], m);
    }
  }

  /** Working on a table's operation keeps its kind and touches no other table. */
  ghost predicate Progress(a: A.Agent, a': A.Agent, t: TableID) {
    && t in a.ops && t in a'.ops
    && a' == a.(ops := a.ops[t := a'.ops[t]], exec := a'.exec)
    && a'.ops[t].isDelete == a.ops[t].isDelete
    && (forall u :: u != t ==> (u in a.exec <==> u in a'.exec))
    && (t in a'.exec <==> if a'.ops[t].isDelete then !a'.ops[t].status.Finished? else !a'.ops[t].status.Received?)
  }

  lemma ProgressOk(a: A.Agent, a': A.Agent, t: TableID, q: seq<Op>)
    requires AgentOk(a, q) && Progress(a, a', t)
    ensures AgentOk(a', q)
  {
  }

  lemma ProgressLinked(recs: map<TableID, TableRecord>, a: A.Agent, a': A.Agent, t: TableID, q: seq<Op>,
                       box: seq<AgentMsg>)
    requires AgentOk(a, q) && Progress(a, a', t) && Linked(recs, a, q, box)
    ensures Linked(recs, a', q, box)
  {
  }

  lemma TakenHolds(p: seq<Op>)
    requires forall i, j :: 0 <= i < j < |p| ==> p[i].tableID != p[j].tableID
    ensures forall t :: t in A.Taken(p) <==> Queued(p, t)
    ensures forall i :: 0 <= i < |p| ==>
              p[i].tableID in A.Taken(p) && A.Taken(p)[p[i].tableID] == A.AgentOp(p[i].isDelete, A.Received)
  {
    A.TakenKeys(p);
    forall i | 0 <= i < |p|
      ensures p[i].tableID in A.Taken(p) && A.Taken(p)[p[i].tableID] == A.AgentOp(p[i].isDelete, A.Received)
    {
      TakenValue(p, i);
    }
  }

  lemma {:induction false} TakenValue(p: seq<Op>, i: nat)
    requires forall i, j :: 0 <= i < j < |p| ==> p[i].tableID != p[j].tableID
    requires i < |p|
    ensures p[i].tableID in A.Taken(p) && A.Taken(p)[p[i].tableID] == A.AgentOp(p[i].isDelete, A.Received)
  {
    if i < |p| - 1 {
      TakenValue(p[..|p| - 1], i);
    }
  }

  lemma TakeOk(a: A.Agent, rest: seq<Op>)
    requires AgentOk(a, a.pending + rest)
    ensures AgentOk(a.(pending := [], ops := a.ops + A.Taken(a.pending)), rest)
    ensures forall t :: t in A.Taken(a.pending) <==> Queued(a.pending, t)
    ensures forall t :: Queued(a.pending + rest, t) <==> Queued(a.pending, t) || Queued(rest, t)
    ensures forall i :: 0 <= i < |a.pending| ==>
              && a.pending[i].tableID in A.Taken(a.pending)
              && A.Taken(a.pending)[a.pending[i].tableID] == A.AgentOp(a.pending[i].isDelete, A.Received)
  {
    var q := a.pending + rest;
    forall i | 0 <= i < |a.pending| ensures a.pending[i] == q[i] {}
    forall i | 0 <= i < |rest| ensures rest[i] == q[|a.pending| + i] {}
    TakenHolds(a.pending);
  }

  lemma TakeLinked(recs: map<TableID, TableRecord>, a: A.Agent, rest: seq<Op>, box: seq<AgentMsg>)
    requires AgentOk(a, a.pending + rest) && Linked(recs, a, a.pending + rest, box)
    ensures Linked(recs, a.(pending := [], ops := a.ops + A.Taken(a.pending)), rest, box)
  {
    TakeOk(a, rest);
    var a' := a.(pending := [], ops := a.ops + A.Taken(a.pending));
    var q := a.pending + rest;
    forall t | t in recs ensures Settled(recs[t].status, a', rest, box, t) {
      assert Settled(recs[t].status, a, q, box, t);
      if Queued(a.pending, t) {
        var i :| 0 <= i < |a.pending| && a.pending[i].tableID == t;
        assert q[i] == a.pending[i];
      }
    }
  }

  lemma FinishLinked(recs: map<TableID, TableRecord>, a: A.Agent, q: seq<Op>, box: seq<AgentMsg>, t: TableID)
    requires AgentOk(a, q) && Linked(recs, a, q, box) && t in a.ops && a.ops[t].status.Finished?
    ensures Linked(recs, a.(ops := a.ops - {t}), q, box + [Finish(t)])
  {
    var a', box' := a.(ops := a.ops - {t}), box + [Finish(t)];
    forall u ensures Finish(u) in box' <==> u == t || Finish(u) in box {}
    assert !Queued(q, t);
    forall u | u in recs ensures Settled(recs[u].status, a', q, box', u) {
      assert Settled(recs[u].status, a, q, box, u);
    }
  }

  lemma SyncLinked(a: A.Agent, c: CaptureID)
    requires AgentOk(a, [])
    ensures var m := A.SyncOf(a);
            && D.PairwiseDisjoint(m.running, m.adding, m.removing)
            && Linked(D.SyncRecords(c, m.running, m.adding, m.removing), a, [], [])
  {
  }

  lemma AgentActsOk(n: Node, rev: nat, c: CaptureID, stage: Stage, recs: map<TableID, TableRecord>, act: A.AgentAction)
    requires NodeOk(n, rev, c, stage, recs) && A.Enabled(n.agent, act)
    ensures var n' := Reported(n, A.Sends(n.agent, act)).(agent := A.Step(n.agent, act));
            NodeOk(n', rev, c, stage, recs) && ClaimsShrink(n, n', rev)
  {
    match act
    case SwitchOwner => assert Queue(n.(agent := A.Step(n.agent, act))) == Queue(n);
    case SendSync => SendSyncOk(n, rev, c, stage, recs);
    case TakePending => TakePendingOk(n, rev, c, stage, recs);
    case SendFinish(t) => SendFinishOk(n, rev, c, stage, recs, t);
    case _ => WorkOk(n, rev, c, stage, recs, act.tableID, A.Step(n.agent, act));
  }

  lemma WorkOk(n: Node, rev: nat, c: CaptureID, stage: Stage, recs: map<TableID, TableRecord>, t: TableID, a: A.Agent)
    requires NodeOk(n, rev, c, stage, recs) && Progress(n.agent, a, t)
    ensures NodeOk(n.(agent := a), rev, c, stage, recs) && ClaimsShrink(n, n.(agent := a), rev)
  {
    var n' := n.(agent := a);
    assert Queue(n') == Queue(n);
    ProgressOk(n.agent, a, t, Queue(n));
    var outbox := Chan(n.outbox, rev);
    match stage
    case NotAnnounced =>
    case Waiting =>
      if n.agent.ownerRev == rev && !n.agent.needSync {
        assert Queue(n) == [];
        ProgressLinked(D.SyncRecords(c, outbox[0].running, outbox[0].adding, outbox[0].removing), n.agent, a, t, [],
                       outbox[1..]);
      }
    case Synced => ProgressLinked(recs, n.agent, a, t, Queue(n), outbox);
  }

  /** Adding a report to the outbox for the owner the agent now sends to. */
  lemma ReportRevs(n: Node, n': Node, rev: nat, m: AgentMsg)
    requires RevsOk(n, rev)
    requires n' == Reported(n, [A.Report(n'.agent.target, m)]).(agent := n'.agent)
    requires n'.agent.ownerRev == n.agent.ownerRev && n'.agent.target <= n.agent.ownerRev
    requires n'.agent.target < n.agent.ownerRev <==> n'.agent.ownerHasChanged
    requires n'.agent.ownerHasChanged ==> n'.agent.needSync
    ensures RevsOk(n', rev)
    ensures n'.agent.target != rev ==> Chan(n'.outbox, rev) == Chan(n.outbox, rev)
    ensures n'.agent.target == rev ==> Chan(n'.outbox, rev) == Chan(n.outbox, rev) + [m]
  {
    assert forall r :: r != n'.agent.target ==> Chan(n'.outbox, r) == Chan(n.outbox, r);
  }

  lemma SendSyncOk(n: Node, rev: nat, c: CaptureID, stage: Stage, recs: map<TableID, TableRecord>)
    requires NodeOk(n, rev, c, stage, recs) && A.Enabled(n.agent, A.SendSync)
    ensures var n' := Reported(n, A.Sends(n.agent, A.SendSync)).(agent := A.Step(n.agent, A.SendSync));
            NodeOk(n', rev, c, stage, recs) && ClaimsShrink(n, n', rev)
  {
    var n' := Reported(n, A.Sends(n.agent, A.SendSync)).(agent := A.Step(n.agent, A.SendSync));
    assert Queue(n') == Queue(n);
    ReportRevs(n, n', rev, A.SyncOf(n.agent));
    SyncStage(n, n', rev, c, stage, recs);
    SyncClaims(n, n', rev);
  }

  lemma SyncStage(n: Node, n': Node, rev: nat, c: CaptureID, stage: Stage, recs: map<TableID, TableRecord>)
    requires StageOk(n, rev, c, stage, recs) && n.agent.needSync
    requires AgentOk(n.agent, Queue(n))
    requires n'.agent == n.agent.(target := n.agent.ownerRev, ownerHasChanged := false, needSync := false)
    requires n'.inbox == n.inbox
    requires Chan(n'.outbox, rev) == Chan(n.outbox, rev) + if n.agent.ownerRev == rev then [A.SyncOf(n.agent)] else []
    ensures StageOk(n', rev, c, stage, recs)
  {
    if n.agent.ownerRev == rev {
      assert Chan(n'.outbox, rev)[1..] == [];
      SyncLinked(n'.agent, c);
    }
  }

  lemma SyncClaims(n: Node, n': Node, rev: nat)
    requires n'.agent.exec == n.agent.exec && n'.agent.ops == n.agent.ops && Queue(n') == Queue(n)
    requires Chan(n'.outbox, rev) == Chan(n.outbox, rev)
             || Chan(n'.outbox, rev) == Chan(n.outbox, rev) + [A.SyncOf(n.agent)]
    ensures ClaimsShrink(n, n', rev)
  {
  }

  lemma TakePendingOk(n: Node, rev: nat, c: CaptureID, stage: Stage, recs: map<TableID, TableRecord>)
    requires NodeOk(n, rev, c, stage, recs) && A.Enabled(n.agent, A.TakePending)
    ensures var n' := n.(agent := A.Step(n.agent, A.TakePending));
            NodeOk(n', rev, c, stage, recs) && ClaimsShrink(n, n', rev)
  {
    var n' := n.(agent := A.Step(n.agent, A.TakePending));
    var rest := OpsOf(Chan(n.inbox, n.agent.ownerRev));
    assert Queue(n') == rest;
    TakeOk(n.agent, rest);
    match stage
    case NotAnnounced =>
    case Waiting =>
      if n.agent.pending == [] { assert n'.agent == n.agent; }
    case Synced => TakeLinked(recs, n.agent, rest, Chan(n.outbox, rev));
  }

  lemma SendFinishOk(n: Node, rev: nat, c: CaptureID, stage: Stage, recs: map<TableID, TableRecord>, t: TableID)
    requires NodeOk(n, rev, c, stage, recs) && A.Enabled(n.agent, A.SendFinish(t))
    ensures var n' := Reported(n, A.Sends(n.agent, A.SendFinish(t))).(agent := A.Step(n.agent, A.SendFinish(t)));
            NodeOk(n', rev, c, stage, recs) && ClaimsShrink(n, n', rev)
  {
    var n' := Reported(n, A.Sends(n.agent, A.SendFinish(t))).(agent := A.Step(n.agent, A.SendFinish(t)));
    assert Queue(n') == Queue(n);
    ReportRevs(n, n', rev, Finish(t));
    FinishStage(n, n', rev, c, stage, recs, t);
    FinishClaims(n, n', rev, t);
  }

  lemma FinishStage(n: Node, n': Node, rev: nat, c: CaptureID, stage: Stage, recs: map<TableID, TableRecord>,
                    t: TableID)
    requires StageOk(n, rev, c, stage, recs) && AgentOk(n.agent, Queue(n)) && t in n.agent.ops
             && n.agent.ops[t].status.Finished?
    requires n'.agent == n.agent.(ops := n.agent.ops - {t}) && n'.inbox == n.inbox
    requires n.agent.target == rev ==> n.agent.ownerRev == rev && !n.agent.needSync
    requires n.agent.target != rev ==> !(n.agent.ownerRev == rev && !n.agent.needSync)
    requires Chan(n'.outbox, rev) == Chan(n.outbox, rev) + if n.agent.target == rev then [Finish(t)] else []
    ensures StageOk(n', rev, c, stage, recs)
  {
    assert Queue(n') == Queue(n);
    if n.agent.target == rev {
      if stage.Synced? {
        FinishLinked(recs, n.agent, Queue(n), Chan(n.outbox, rev), t);
      } else {
        FinishWaiting(c, n.agent, Chan(n.outbox, rev), Chan(n'.outbox, rev), t);
      }
    }
  }

  /** The same while the Sync that goes before is still in flight. */
  lemma FinishWaiting(c: CaptureID, a: A.Agent, outbox: seq<AgentMsg>, outbox': seq<AgentMsg>, t: TableID)
    requires |outbox| > 0 && outbox[0].Sync? && t in a.ops && a.ops[t].status.Finished? && AgentOk(a, [])
    requires Linked(D.SyncRecords(c, outbox[0].running, outbox[0].adding, outbox[0].removing), a, [], outbox[1..])
    requires outbox' == outbox + [Finish(t)]
    ensures outbox'[0] == outbox[0]
    ensures Linked(D.SyncRecords(c, outbox[0].running, outbox[0].adding, outbox[0].removing),
                   a.(ops := a.ops - {t}), [], outbox'[1..])
  {
    FinishLinked(D.SyncRecords(c, outbox[0].running, outbox[0].adding, outbox[0].removing), a, [], outbox[1..], t);
    assert outbox'[1..] == outbox[1..] + [Finish(t)];
  }

  lemma FinishClaims(n: Node, n': Node, rev: nat, t: TableID)
    requires t in n.agent.ops && n'.agent == n.agent.(ops := n.agent.ops - {t}) && Queue(n') == Queue(n)
    requires Chan(n'.outbox, rev) == Chan(n.outbox, rev) || Chan(n'.outbox, rev) == Chan(n.outbox, rev) + [Finish(t)]
    ensures ClaimsShrink(n, n', rev)
  {
  }

  lemma DeliverToAgentOk(n: Node, rev: nat, c: CaptureID, stage: Stage, recs: map<TableID, TableRecord>, r: nat)
    requires NodeOk(n, rev, c, stage, recs) && Chan(n.inbox, r) != []
    ensures var box := Chan(n.inbox, r);
            var n' := n.(agent := A.OnOwnerMsg(n.agent, r, box[0]), inbox := n.inbox[r := box[1..]]);
            NodeOk(n', rev, c, stage, recs) && ClaimsShrink(n, n', rev)
  {
    var box := Chan(n.inbox, r);
    var n' := n.(agent := A.OnOwnerMsg(n.agent, r, box[0]), inbox := n.inbox[r := box[1..]]);
    assert forall r' :: r' != r ==> Chan(n'.inbox, r') == Chan(n.inbox, r');
    if r > n.agent.ownerRev {
      assert box == [Announce] && box[1..] == [];
      NewOwnerOk(n, n', rev, c, stage, recs, r);
    } else {
      assert r == n.agent.ownerRev ==> box[0] in box;
      assert Queue(n') == Queue(n);
      SameOwnerOk(n, n', rev, c, stage, recs);
    }
  }

  lemma NewOwnerOk(n: Node, n': Node, rev: nat, c: CaptureID, stage: Stage, recs: map<TableID, TableRecord>, r: nat)
    requires NodeOk(n, rev, c, stage, recs) && r > n.agent.ownerRev && Chan(n.inbox, r) != []
    requires n' == n.(agent := A.OnOwnerMsg(n.agent, r, Announce), inbox := n.inbox[r := []])
    requires forall r' :: r' != r ==> Chan(n'.inbox, r') == Chan(n.inbox, r')
    ensures NodeOk(n', rev, c, stage, recs) && ClaimsShrink(n, n', rev)
  {
    assert Queue(n') == [];
  }

  lemma SameOwnerOk(n: Node, n': Node, rev: nat, c: CaptureID, stage: Stage, recs: map<TableID, TableRecord>)
    requires NodeOk(n, rev, c, stage, recs) && Queue(n') == Queue(n) && n'.outbox == n.outbox
    requires n'.agent == n.agent.(pending := n'.agent.pending)
    requires forall r :: r > n.agent.ownerRev ==> Chan(n'.inbox, r) == Chan(n.inbox, r)
    requires Announce !in Chan(n'.inbox, n.agent.ownerRev)
    requires n.agent.ownerRev == rev && !stage.Synced? ==> n'.agent.pending == [] && Chan(n'.inbox, rev) == []
    ensures NodeOk(n', rev, c, stage, recs) && ClaimsShrink(n, n', rev)
  {
  }

  // ----- Steps of the owner -----

  lemma RefreshOk(s: System, captures: set<CaptureID>, ts: Ts)
    requires Inv(s) && Enabled(s, OwnerActs(D.Refresh(captures, ts)))
    ensures Inv(Step(s, OwnerActs(D.Refresh(captures, ts))))
  {
    var s' := Step(s, OwnerActs(D.Refresh(captures, ts)));
    forall c | c !in s'.dropped ensures Tracked(s', c) {
      assert Tracked(s, c);
    }
    assert forall c, t :: Claimed(s', c, t) == Claimed(s, c, t);
  }

  /** A step that leaves every capture but `c` and its records alone. */
  ghost predicate OnlyTouches(s: System, s': System, c: CaptureID) {
    && s'.rev == s.rev && s'.dropped == s.dropped
    && forall c' :: c' != c ==>
         && NodeOf(s', c') == NodeOf(s, c')
         && StageOf(s'.owner, c') == StageOf(s.owner, c')
         && RecordsOf(s'.owner.tables, c') == RecordsOf(s.owner.tables, c')
  }

  lemma NodesFrame(s: System, s': System, c: CaptureID)
    requires NodesOk(s) && OnlyTouches(s, s', c)
    requires c !in s'.dropped ==> Tracked(s', c)
    ensures NodesOk(s')
  {
    forall c' | c' !in s'.dropped ensures Tracked(s', c') {
      assert c' != c ==> Tracked(s, c');
    }
  }

  /** A step by which no live capture comes to claim a table it did not claim. */
  lemma ClaimsFrame(s: System, s': System, c: CaptureID)
    requires ClaimsOk(s) && OnlyTouches(s, s', c) && s.contacted <= s'.contacted
    requires forall t :: c !in s.dropped && Claimed(s', c, t) ==> Claimed(s, c, t)
    requires forall t :: t in s'.owner.tables && t in s.owner.tables ==>
               s'.owner.tables[t].captureID == s.owner.tables[t].captureID
    requires forall t :: t in s'.owner.tables && t !in s.owner.tables ==>
               c !in s.dropped && s'.owner.tables[t].captureID == c && Claimed(s, c, t)
    ensures ClaimsOk(s')
  {
    forall c', t | c' !in s.dropped && Claimed(s', c', t) ensures Claimed(s, c', t) {
      assert c' != c ==> NodeOf(s', c') == NodeOf(s, c');
    }
  }

  lemma SendAnnounceOk(s: System, c: CaptureID)
    requires Inv(s) && Enabled(s, OwnerActs(D.SendAnnounce(c)))
    ensures Inv(Step(s, OwnerActs(D.SendAnnounce(c))))
  {
    var s' := Step(s, OwnerActs(D.SendAnnounce(c)));
    assert Tracked(s, c);
    AnnouncedOk(NodeOf(s, c), s.rev, c, RecordsOf(s.owner.tables, c));
    NodesFrame(s, s', c);
    ClaimsFrame(s, s', c);
  }

  lemma AnnouncedOk(n: Node, rev: nat, c: CaptureID, recs: map<TableID, TableRecord>)
    requires NodeOk(n, rev, c, NotAnnounced, recs)
    ensures var n' := n.(inbox := n.inbox[rev := Chan(n.inbox, rev) + [Announce]]);
            NodeOk(n', rev, c, Waiting, recs) && ClaimsShrink(n, n', rev)
  {
    var n' := n.(inbox := n.inbox[rev := Chan(n.inbox, rev) + [Announce]]);
    assert forall r :: r != rev ==> Chan(n'.inbox, r) == Chan(n.inbox, r);
    assert Queue(n') == Queue(n);
  }

  lemma FewerJobs(d: D.Dispatcher, d': D.Dispatcher)
    requires forall t :: t in d'.jobs ==> t in d.jobs && d'.jobs[t] == d.jobs[t]
    ensures forall t :: D.MoveReady(d', t) ==> D.MoveReady(d, t) && d'.jobs[t] == d.jobs[t]
  {
  }

  lemma DescheduleOk(s: System, c: CaptureID)
    requires Inv(s) && Enabled(s, OwnerActs(D.Deschedule(c)))
    ensures Inv(Step(s, OwnerActs(D.Deschedule(c))))
  {
    var s' := Step(s, OwnerActs(D.Deschedule(c)));
    forall c' | c' != c || c' !in s.dropped
      ensures RecordsOf(s'.owner.tables, c') == RecordsOf(s.owner.tables, c')
    {
      assert c' !in s.dropped ==> Tracked(s, c');
    }
    assert c !in s.dropped ==> Tracked(s, c);
    assert s.unticked ==> s'.owner.tables == s.owner.tables;
    FewerJobs(s.owner, s'.owner);
    NodesFrame(s, s', c);
    ClaimsFrame(s, s', c);
  }

  /** Once every listed capture has synced, a table without a record is claimed by nobody. */
  lemma UnrecordedIsUnclaimed(s: System, c: CaptureID, t: TableID)
    requires Inv(s) && D.AllSynced(s.owner) && !s.unticked && c !in s.dropped && t !in s.owner.tables
    ensures !Claimed(s, c, t)
  {
    if Claimed(s, c, t) {
      assert c in s.owner.captures;
      assert Tracked(s, c);
      LinkedClaims(NodeOf(s, c), s.rev, RecordsOf(s.owner.tables, c), t);
    }
  }

  lemma LinkedClaims(n: Node, rev: nat, recs: map<TableID, TableRecord>, t: TableID)
    requires Linked(recs, n.agent, Queue(n), Chan(n.outbox, rev))
    ensures Claims(n, rev, t) <==> t in recs
  {
    var box := Chan(n.outbox, rev);
    if Mentioned(box, t) { assert Finish(t) in box; }
    if Finish(t) in box { assert Mentioned(box, t); }
  }

  lemma QueuedAppend(q: seq<Op>, op: Op)
    ensures forall u :: Queued(q + [op], u) <==> u == op.tableID || Queued(q, u)
  {
    var q' := q + [op];
    forall u ensures Queued(q', u) <==> u == op.tableID || Queued(q, u) {
      if Queued(q, u) { var i :| 0 <= i < |q| && q[i].tableID == u; assert q'[i] == q[i]; }
      assert q'[|q|] == op;
    }
  }

  lemma PostLinked(c: CaptureID, recs: map<TableID, TableRecord>, a: A.Agent, q: seq<Op>, box: seq<AgentMsg>, op: Op)
    requires AgentOk(a, q) && Linked(recs, a, q, box)
    requires if op.isDelete then op.tableID in recs && recs[op.tableID].status.RunningTable? else op.tableID !in recs
    ensures AgentOk(a, q + [op])
    ensures Linked(recs[op.tableID := TableRecord(c, if op.isDelete then RemovingTable else AddingTable)], a, q + [op],
                   box)
  {
    var t, q' := op.tableID, q + [op];
    var recs' := recs[t := TableRecord(c, if op.isDelete then RemovingTable else AddingTable)];
    QueuedAppend(q, op);
    assert op.isDelete ==> Settled(recs[t].status, a, q, box, t);
    assert !Queued(q, t);
    forall u | u in recs' ensures Settled(recs'[u].status, a, q', box, u) {
      assert u != t ==> Settled(recs[u].status, a, q, box, u);
    }
  }

  /** Posting an operation on table `t` to a synced capture. */
  lemma PostOk(n: Node, rev: nat, c: CaptureID, recs: map<TableID, TableRecord>, t: TableID, isDelete: bool)
    requires NodeOk(n, rev, c, Synced, recs)
    requires if isDelete then t in recs && recs[t].status.RunningTable? else t !in recs
    ensures var n' := n.(inbox := n.inbox[rev := Chan(n.inbox, rev) + [Dispatch(Op(t, isDelete))]]);
            var recs' := recs[t := TableRecord(c, if isDelete then RemovingTable else AddingTable)];
            && NodeOk(n', rev, c, Synced, recs')
            && forall u :: Claims(n', rev, u) ==> u == t || Claims(n, rev, u)
  {
    var n' := n.(inbox := n.inbox[rev := Chan(n.inbox, rev) + [Dispatch(Op(t, isDelete))]]);
    assert forall r :: r != rev ==> Chan(n'.inbox, r) == Chan(n.inbox, r);
    OpsOfAppend(Chan(n.inbox, rev), Dispatch(Op(t, isDelete)));
    assert Queue(n') == Queue(n) + [Op(t, isDelete)];
    PostLinked(c, recs, n.agent, Queue(n), Chan(n.outbox, rev), Op(t, isDelete));
    QueuedAppend(Queue(n), Op(t, isDelete));
  }

  lemma UpdatedRecords(tables: map<TableID, TableRecord>, t: TableID, rec: TableRecord)
    requires t in tables ==> tables[t].captureID == rec.captureID
    ensures RecordsOf(tables[t := rec], rec.captureID) == RecordsOf(tables, rec.captureID)[t := rec]
    ensures forall c :: c != rec.captureID ==> RecordsOf(tables[t := rec], c) == RecordsOf(tables, c)
  {
  }

  /** A dispatch to capture `c` that writes the record of table `t` accordingly. */
  ghost predicate Dispatches(s: System, s': System, c: CaptureID, t: TableID, isDelete: bool) {
    && c in s.owner.captures + s.dropped
    && (if isDelete then D.IsRunning(s.owner, t) && s.owner.tables[t].captureID == c else t !in s.owner.tables)
    && s' == Posted(s, [D.Envelope(c, Dispatch(Op(t, isDelete)))]).(owner := s'.owner)
    && s'.owner.captures == s.owner.captures && s'.owner.status == s.owner.status
    && s'.owner.tables == s.owner.tables[t := TableRecord(c, if isDelete then RemovingTable else AddingTable)]
  }

  lemma DispatchOk(s: System, s': System, c: CaptureID, t: TableID, isDelete: bool)
    requires Inv(s) && D.AllSynced(s.owner) && !s.unticked && Dispatches(s, s', c, t, isDelete)
    ensures NodesOk(s') && ClaimsOk(s')
  {
    UpdatedRecords(s.owner.tables, t, s'.owner.tables[t]);
    assert OnlyTouches(s, s', c);
    if c !in s.dropped {
      assert Tracked(s, c);
      PostOk(NodeOf(s, c), s.rev, c, RecordsOf(s.owner.tables, c), t, isDelete);
    }
    NodesFrame(s, s', c);
    DispatchClaims(s, s', c, t, isDelete);
  }

  lemma DispatchClaims(s: System, s': System, c: CaptureID, t: TableID, isDelete: bool)
    requires Inv(s) && D.AllSynced(s.owner) && !s.unticked && Dispatches(s, s', c, t, isDelete)
    requires forall u :: c !in s.dropped && Claimed(s', c, u) ==> u == t || Claimed(s, c, u)
    ensures ClaimsOk(s')
  {
    forall c', u | c' !in s.dropped && Claimed(s', c', u) ensures Claimed(s, c', u) || (c' == c && u == t) {
      assert c' != c ==> NodeOf(s', c') == NodeOf(s, c');
    }
    forall c' | c' !in s.dropped && c' != c ensures !Claimed(s, c', t) {
      if !isDelete { UnrecordedIsUnclaimed(s, c', t); }
    }
  }

  lemma OwnerActsOk(s: System, a: D.OwnerAction)
    requires Inv(s) && Enabled(s, OwnerActs(a))
    ensures Inv(Step(s, OwnerActs(a)))
  {
    var s' := Step(s, OwnerActs(a));
    match a
    case Refresh(captures, ts) => RefreshOk(s, captures, ts);
    case SendAnnounce(c) => SendAnnounceOk(s, c);
    case Deschedule(c) => DescheduleOk(s, c);
    case DispatchAdd(t, target) =>
      DispatchOk(s, s', target, t, false);
    case DispatchRemove(t) => RecordedOk(s, t); DispatchOk(s, s', s.owner.tables[t].captureID, t, true);
    case DispatchMove(t) => RecordedOk(s, t); DispatchOk(s, s', s.owner.tables[t].captureID, t, true);
    case RequestMove(t, target) => JobsOnly(s, s');
    case AbandonMove(t) =>
      FewerJobs(s.owner, s'.owner);
      JobsOnly(s, s');
  }

  lemma JobsOnly(s: System, s': System)
    requires NodesOk(s) && ClaimsOk(s) && s' == s.(owner := s.owner.(jobs := s'.owner.jobs))
    ensures NodesOk(s') && ClaimsOk(s')
  {
    forall c | c !in s'.dropped ensures Tracked(s', c) {
      assert Tracked(s, c);
    }
    assert forall c, t :: Claimed(s', c, t) == Claimed(s, c, t);
  }

  lemma RecordedOk(s: System, t: TableID)
    requires Inv(s) && t in s.owner.tables
    ensures s.owner.tables[t].captureID in s.owner.captures + s.dropped
  {
    var c := s.owner.tables[t].captureID;
    if c !in s.dropped {
      assert Tracked(s, c);
      assert t in RecordsOf(s.owner.tables, c);
    }
  }

  // ----- Messages to the owner -----

  /** Delivering the head of a capture's reports to the owner does not panic. */
  ghost predicate NoPanic(s: System) {
    forall c :: Chan(NodeOf(s, c).outbox, s.rev) != [] ==>
      D.OnMessage(s.owner, c, Chan(NodeOf(s, c).outbox, s.rev)[0]).Done?
  }

  lemma InvImpliesNoPanic(s: System)
    requires Inv(s)
    ensures NoPanic(s)
  {
    forall c | Chan(NodeOf(s, c).outbox, s.rev) != []
      ensures D.OnMessage(s.owner, c, Chan(NodeOf(s, c).outbox, s.rev)[0]).Done?
    {
      var box := Chan(NodeOf(s, c).outbox, s.rev);
      if c !in s.dropped {
        assert Tracked(s, c);
        if StageOf(s.owner, c).Waiting? {
          SyncIsAccepted(s, c);
        } else {
          FinishIsAccepted(s, c);
        }
      } else {
        assert c !in s.owner.captures && c !in s.owner.status;
      }
    }
  }

  lemma FinishIsAccepted(s: System, c: CaptureID)
    requires Inv(s) && c !in s.dropped && StageOf(s.owner, c).Synced? && Chan(NodeOf(s, c).outbox, s.rev) != []
    ensures var m := Chan(NodeOf(s, c).outbox, s.rev)[0];
            && m.Finish? && m.tableID in s.owner.tables && s.owner.tables[m.tableID].captureID == c
            && !s.owner.tables[m.tableID].status.RunningTable?
  {
    assert Tracked(s, c);
    var n := NodeOf(s, c);
    var box, recs := Chan(n.outbox, s.rev), RecordsOf(s.owner.tables, c);
    assert box[0].Finish? && box[0] in box;
    var t := box[0].tableID;
    assert t in recs;
    assert Settled(recs[t].status, n.agent, Queue(n), box, t);
  }

  lemma SyncIsAccepted(s: System, c: CaptureID)
    requires Inv(s) && c !in s.dropped && StageOf(s.owner, c).Waiting? && Chan(NodeOf(s, c).outbox, s.rev) != []
    ensures var m := Chan(NodeOf(s, c).outbox, s.rev)[0];
            && m.Sync? && D.PairwiseDisjoint(m.running, m.adding, m.removing)
            && D.WithoutCapture(s.owner.tables, c) == s.owner.tables
            && forall t :: t in m.running + m.adding + m.removing ==> Claimed(s, c, t) && t !in s.owner.tables
  {
    assert Tracked(s, c);
    var box := Chan(NodeOf(s, c).outbox, s.rev);
    var m := box[0];
    forall t | t in s.owner.tables ensures s.owner.tables[t].captureID != c {
      assert t !in RecordsOf(s.owner.tables, c);
    }
    forall t | t in m.running + m.adding + m.removing ensures Claimed(s, c, t) && t !in s.owner.tables {
      assert Mentioned(box, t);
      assert Claimed(s, c, t);
    }
  }

  lemma DeliverLists(s: System, c: CaptureID)
    requires ListsOk(s) && Enabled(s, DeliverToOwner(c))
    ensures ListsOk(Step(s, DeliverToOwner(c)))
  {
  }

  lemma MergedRecords(tables: map<TableID, TableRecord>, recs: map<TableID, TableRecord>, c: CaptureID)
    requires forall t :: t in tables ==> tables[t].captureID != c && t !in recs
    requires forall t :: t in recs ==> recs[t].captureID == c
    ensures RecordsOf(tables + recs, c) == recs
    ensures forall c' :: c' != c ==> RecordsOf(tables + recs, c') == RecordsOf(tables, c')
  {
    var all := tables + recs;
    forall t | t in recs ensures t in all && all[t] == recs[t] {}
    forall t | t in tables ensures t in all && all[t] == tables[t] {}
    assert forall t :: t in all ==> t in tables || t in recs;
    var r := RecordsOf(all, c);
    assert forall t :: t in r <==> t in recs;
    assert r.Keys == recs.Keys;
    assert r == recs;
    forall c' | c' != c ensures RecordsOf(all, c') == RecordsOf(tables, c') {}
  }

  lemma DeliverSyncTouches(s: System, c: CaptureID)
    requires Enabled(s, DeliverToOwner(c)) && D.WithoutCapture(s.owner.tables, c) == s.owner.tables
    requires c in s.owner.status && Chan(NodeOf(s, c).outbox, s.rev)[0].Sync?
    ensures var m := Chan(NodeOf(s, c).outbox, s.rev)[0];
            var s' := Step(s, DeliverToOwner(c));
            && OnlyTouches(s, s', c)
            && RecordsOf(s'.owner.tables, c) == D.SyncRecords(c, m.running, m.adding, m.removing)
            && StageOf(s'.owner, c) == Synced
  {
    var s' := Step(s, DeliverToOwner(c));
    var m := Chan(NodeOf(s, c).outbox, s.rev)[0];
    forall t | t in s.owner.tables ensures s.owner.tables[t].captureID != c {
      assert t in D.WithoutCapture(s.owner.tables, c);
    }
    MergedRecords(s.owner.tables, D.SyncRecords(c, m.running, m.adding, m.removing), c);
  }

  lemma DeliverSyncOk(s: System, c: CaptureID)
    requires Inv(s) && Enabled(s, DeliverToOwner(c)) && c !in s.dropped && StageOf(s.owner, c).Waiting?
    ensures NodesOk(Step(s, DeliverToOwner(c))) && ClaimsOk(Step(s, DeliverToOwner(c)))
  {
    var s' := Step(s, DeliverToOwner(c));
    SyncIsAccepted(s, c);
    DeliverSyncTouches(s, c);
    assert Tracked(s, c);
    ConsumedOk(NodeOf(s, c), s.rev, c, Waiting, RecordsOf(s.owner.tables, c), RecordsOf(s'.owner.tables, c));
    NodesFrame(s, s', c);
    ClaimsFrame(s, s', c);
  }

  /** Taking the first message out of the outbox, with the owner's records updated by it. */
  lemma ConsumedOk(n: Node, rev: nat, c: CaptureID, stage: Stage, recs: map<TableID, TableRecord>,
                   recs': map<TableID, TableRecord>)
    requires NodeOk(n, rev, c, stage, recs) && Chan(n.outbox, rev) != []
    requires var box := Chan(n.outbox, rev);
             match box[0]
             case Sync(running, adding, removing) => stage == Waiting
               && recs' == D.SyncRecords(c, running, adding, removing)
             case Finish(t) =>
               && stage == Synced && t in recs
               && recs'
                  == if recs[t].status.AddingTable? then recs[t := recs[t].(status := RunningTable)] else recs - {t}
    ensures var n' := n.(outbox := n.outbox[rev := Chan(n.outbox, rev)[1..]]);
            NodeOk(n', rev, c, Synced, recs') && ClaimsShrink(n, n', rev)
  {
    var box := Chan(n.outbox, rev);
    var n' := n.(outbox := n.outbox[rev := box[1..]]);
    assert forall r :: r != rev ==> Chan(n'.outbox, r) == Chan(n.outbox, r);
    assert Queue(n') == Queue(n);
    if box[0].Sync? {
      assert Queue(n) == [];
    } else {
      ReplyLinked(recs, n.agent, Queue(n), box);
    }
    forall t | Mentioned(box[1..], t) ensures Mentioned(box, t) {
      var i :| 0 <= i < |box[1..]| && (match box[1..][i]
        case Sync(running, adding, removing) => t in running || t in adding || t in removing
        case Finish(u) => u == t);
      assert box[1..][i] == box[i + 1];
    }
  }

  lemma ReplyLinked(recs: map<TableID, TableRecord>, a: A.Agent, q: seq<Op>, box: seq<AgentMsg>)
    requires Linked(recs, a, q, box) && box != []
    ensures var t := box[0].tableID;
            t in recs &&
            Linked(if recs[t].status.AddingTable? then recs[t := recs[t].(status := RunningTable)] else recs - {t},
                   a, q, box[1..])
  {
    var t := box[0].tableID;
    assert box[0] in box && t in recs && Settled(recs[t].status, a, q, box, t);
    var recs' := if recs[t].status.AddingTable? then recs[t := recs[t].(status := RunningTable)] else recs - {t};
    assert box == [box[0]] + box[1..];
    assert forall u :: Finish(u) in box <==> u == t || Finish(u) in box[1..];
    assert Finish(t) !in box[1..];
    forall u | u in recs' ensures Settled(recs'[u].status, a, q, box[1..], u) {
      assert Settled(recs[u].status, a, q, box, u);
    }
  }

  lemma DeliverFinishTouches(s: System, c: CaptureID, t: TableID)
    requires Enabled(s, DeliverToOwner(c)) && Chan(NodeOf(s, c).outbox, s.rev)[0] == Finish(t)
    requires c in s.owner.captures && t in s.owner.tables && s.owner.tables[t].captureID == c
    ensures var s' := Step(s, DeliverToOwner(c));
            var recs := RecordsOf(s.owner.tables, c);
            && OnlyTouches(s, s', c)
            && RecordsOf(s'.owner.tables, c)
               == (if recs[t].status.AddingTable? then recs[t := recs[t].(status := RunningTable)] else recs - {t})
            && StageOf(s'.owner, c) == StageOf(s.owner, c)
  {
    var tables := s.owner.tables;
    if tables[t].status.AddingTable? {
      UpdatedRecords(tables, t, TableRecord(c, RunningTable));
    } else {
      RemovedRecords(tables, t);
    }
  }

  lemma RemovedRecords(tables: map<TableID, TableRecord>, t: TableID)
    requires t in tables
    ensures RecordsOf(tables - {t}, tables[t].captureID) == RecordsOf(tables, tables[t].captureID) - {t}
    ensures forall c :: c != tables[t].captureID ==> RecordsOf(tables - {t}, c) == RecordsOf(tables, c)
  {
  }

  lemma DeliverFinishOk(s: System, c: CaptureID)
    requires Inv(s) && Enabled(s, DeliverToOwner(c)) && c !in s.dropped && StageOf(s.owner, c).Synced?
    ensures NodesOk(Step(s, DeliverToOwner(c))) && ClaimsOk(Step(s, DeliverToOwner(c)))
  {
    var s' := Step(s, DeliverToOwner(c));
    FinishIsAccepted(s, c);
    DeliverFinishTouches(s, c, Chan(NodeOf(s, c).outbox, s.rev)[0].tableID);
    assert Tracked(s, c);
    ConsumedOk(NodeOf(s, c), s.rev, c, Synced, RecordsOf(s.owner.tables, c), RecordsOf(s'.owner.tables, c));
    NodesFrame(s, s', c);
    ClaimsFrame(s, s', c);
  }

  lemma DeliverToOwnerOk(s: System, c: CaptureID)
    requires Inv(s) && Enabled(s, DeliverToOwner(c))
    ensures Inv(Step(s, DeliverToOwner(c)))
  {
    DeliverLists(s, c);
    if c !in s.dropped {
      assert Tracked(s, c);
      if StageOf(s.owner, c).Waiting? { DeliverSyncOk(s, c); } else { DeliverFinishOk(s, c); }
    } else {
      var s' := Step(s, DeliverToOwner(c));
      forall c' | c' != c ensures RecordsOf(s'.owner.tables, c') == RecordsOf(s.owner.tables, c') {}
      NodesFrame(s, s', c);
      ClaimsFrame(s, s', c);
    }
  }

  // ----- Every run -----

  lemma ElectOk(s: System, rev: nat)
    requires Inv(s) && rev > s.rev
    ensures Inv(Step(s, Elect(rev)))
  {
    var s' := Step(s, Elect(rev));
    forall c | c !in s'.dropped ensures Tracked(s', c) {
      assert Tracked(s, c);
    }
    forall c, t | c !in s.dropped && Claimed(s', c, t) ensures Claimed(s, c, t) {
      assert Tracked(s, c);
    }
  }

  lemma NodeEventOk(s: System, e: Event)
    requires Inv(s) && Enabled(s, e) && (e.AgentActs? || e.DeliverToAgent?)
    ensures Inv(Step(s, e))
  {
    var s', c := Step(s, e), e.captureID;
    if c !in s.dropped {
      assert Tracked(s, c);
      if e.AgentActs? {
        AgentActsOk(NodeOf(s, c), s.rev, c, StageOf(s.owner, c), RecordsOf(s.owner.tables, c), e.act);
      } else {
        DeliverToAgentOk(NodeOf(s, c), s.rev, c, StageOf(s.owner, c), RecordsOf(s.owner.tables, c), e.rev);
      }
    }
    NodesFrame(s, s', c);
    forall t | c !in s.dropped && Claimed(s', c, t) ensures Claimed(s, c, t) {}
    ClaimsFrame(s, s', c);
  }

  /** Every event keeps the invariant. */
  lemma StepOk(s: System, e: Event)
    requires Inv(s) && Enabled(s, e)
    ensures Inv(Step(s, e))
  {
    match e
    case OwnerActs(a) => OwnerActsOk(s, a);
    case AgentActs(_, _) => NodeEventOk(s, e);
    case DeliverToAgent(_, _) => NodeEventOk(s, e);
    case DeliverToOwner(c) => DeliverToOwnerOk(s, c);
    case CaptureDown(c) =>
      var s' := Step(s, e);
      forall c' | c' !in s'.dropped ensures Tracked(s', c') { assert Tracked(s, c'); }
      assert forall c', t :: Claimed(s', c', t) == Claimed(s, c', t);
    case Elect(rev) => ElectOk(s, rev);
  }

  // ----- What a step cannot bring about -----

  predicate IsDispatch(e: Event) {
    e.OwnerActs? && (e.action.DispatchAdd? || e.action.DispatchRemove? || e.action.DispatchMove?)
  }

  /** Only a dispatch gives a capture something to do with a table. */
  lemma StepShrinks(s: System, e: Event, c: CaptureID, t: TableID)
    requires Inv(s) && Enabled(s, e) && !IsDispatch(e)
    requires c !in s.dropped && Claimed(Step(s, e), c, t)
    ensures Claimed(s, c, t)
  {
    var n, recs := NodeOf(s, c), RecordsOf(s.owner.tables, c);
    assert Tracked(s, c);
    match e
    case OwnerActs(a) =>
      if a.SendAnnounce? && a.captureID == c { AnnouncedOk(n, s.rev, c, recs); }
    case AgentActs(d, act) =>
      if d == c { AgentActsOk(n, s.rev, c, StageOf(s.owner, c), recs, act); }
    case DeliverToAgent(d, rev) =>
      if d == c { DeliverToAgentOk(n, s.rev, c, StageOf(s.owner, c), recs, rev); }
    case DeliverToOwner(d) =>
      if d == c { ConsumedShrinks(n, s.rev, t); }
    case CaptureDown(_) =>
    case Elect(_) =>
  }

  lemma ConsumedShrinks(n: Node, rev: nat, t: TableID)
    requires Chan(n.outbox, rev) != []
    requires Claims(n.(outbox := n.outbox[rev := Chan(n.outbox, rev)[1..]]), rev, t)
    ensures Claims(n, rev, t)
  {
    var box := Chan(n.outbox, rev);
    var n' := n.(outbox := n.outbox[rev := box[1..]]);
    assert Queue(n') == Queue(n);
    if Mentioned(Chan(n'.outbox, rev), t) {
      var i :| 0 <= i < |box[1..]| &&
        (match box[1..][i]
         case Sync(running, adding, removing) => t in running || t in adding || t in removing
         case Finish(u) => u == t);
      assert box[1..][i] == box[i + 1];
    }
  }

  /** A report brings records only of tables that the capture claims. */
  lemma RecordsAreClaimed(s: System, c: CaptureID, t: TableID)
    requires Inv(s) && Enabled(s, DeliverToOwner(c)) && c !in s.dropped
    requires t in Step(s, DeliverToOwner(c)).owner.tables && t !in s.owner.tables
    ensures Claimed(s, c, t)
  {
    assert Tracked(s, c);
    if StageOf(s.owner, c).Waiting? { SyncIsAccepted(s, c); } else { FinishIsAccepted(s, c); }
  }

  /** Forgetting the records of a capture that was dropped keeps the invariant. */
  lemma ForgetOk(s: System, c: CaptureID)
    requires Inv(s) && c in s.dropped
    ensures Inv(s.(owner := s.owner.(tables := D.WithoutCapture(s.owner.tables, c))))
  {
    var s' := s.(owner := s.owner.(tables := D.WithoutCapture(s.owner.tables, c)));
    forall c' | c' != c ensures RecordsOf(s'.owner.tables, c') == RecordsOf(s.owner.tables, c') {}
    NodesFrame(s, s', c);
    ClaimsFrame(s, s', c);
  }
}
