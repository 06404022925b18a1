/** What becomes of a request when nothing comes in between: the owner's side and the processor's side
    of one exchange, from the request to the record. */
module SchedulerRounds {
  import opened SchedulerTypes
  import D = DispatcherSpec
  import A = AgentSpec

  /** The agent does the actions, one after the other. */
  ghost predicate Does(a: A.Agent, acts: seq<A.AgentAction>, a': A.Agent)
    decreases |acts|
  {
    if acts == [] then a' == a else A.Enabled(a, acts[0]) && Does(A.Step(a, acts[0]), acts[1..], a')
  }

  /** The agent listens to the owner of that revision and has nothing else to tell it first. */
  predicate InTouch(a: A.Agent, rev: nat) {
    a.ownerRev == rev && A.Target(a) == rev && rev > 0 && !a.needSync
  }

  /** What the agent does with an operation for the table that has just come. */
  function Work(t: TableID, isDelete: bool): seq<A.AgentAction> {
    [A.SwitchOwner, A.TakePending, if isDelete then A.Remove(t) else A.Add(t),
     if isDelete then A.RemoveFinished(t) else A.AddFinished(t)]
  }

  lemma DoesFour(a: A.Agent, w: A.AgentAction, x: A.AgentAction, y: A.AgentAction, z: A.AgentAction,
                 a1: A.Agent, a2: A.Agent, a3: A.Agent, a4: A.Agent)
    requires A.Moves(a, w, a1) && A.Moves(a1, x, a2) && A.Moves(a2, y, a3) && A.Moves(a3, z, a4)
    ensures Does(a, [w, x, y, z], a4)
  {
    assert [w, x, y, z][1..] == [x, y, z] && [x, y, z][1..] == [y, z] && [y, z][1..] == [z] && [z][1..] == [];
    assert Does(a4, [], a4);
    assert Does(a3, [z], a4);
    assert Does(a2, [y, z], a4);
    assert Does(a1, [x, y, z], a4);
  }

  /** A request that comes in is taken over. */
  lemma ComesIn(a: A.Agent, rev: nat, t: TableID, isDelete: bool) returns (b: A.Agent, b1: A.Agent, b2: A.Agent)
    requires InTouch(a, rev) && A.NoDuplicates(a.pending + [Op(t, isDelete)], a.ops)
    ensures b == A.OnOwnerMsg(a, rev, Dispatch(Op(t, isDelete)))
    ensures A.Moves(b, A.SwitchOwner, b1) && A.Moves(b1, A.TakePending, b2)
    ensures b2 == a.(target := rev, ownerHasChanged := false, pending := [],
                     ops := (a.ops + A.Taken(a.pending))[t := A.AgentOp(isDelete, A.Received)])
  {
    b := A.OnOwnerMsg(a, rev, Dispatch(Op(t, isDelete)));
    b1 := A.Step(b, A.SwitchOwner);
    assert (a.pending + [Op(t, isDelete)])[..|a.pending|] == a.pending;
    b2 := A.Step(b1, A.TakePending);
    assert b2.ops == (a.ops + A.Taken(a.pending))[t := A.AgentOp(isDelete, A.Received)];
  }

  /** And then worked on. */
  lemma IsWorkedOn(b: A.Agent, t: TableID, isDelete: bool) returns (b': A.Agent, a': A.Agent)
    requires A.HasOp(b, t, isDelete, A.Received)
    ensures A.Moves(b, Work(t, isDelete)[2], b') && A.Moves(b', Work(t, isDelete)[3], a')
    ensures a' == b.(ops := b.ops[t := A.AgentOp(isDelete, A.Finished)],
                     exec := if isDelete then b.exec - {t} else b.exec + {t})
  {
    b' := A.Step(b, Work(t, isDelete)[2]);
    a' := A.Step(b', Work(t, isDelete)[3]);
  }

  /** An operation that comes is done, and is left only to be reported. */
  lemma WorkIsDone(a: A.Agent, rev: nat, t: TableID, isDelete: bool) returns (a': A.Agent)
    requires InTouch(a, rev) && A.NoDuplicates(a.pending + [Op(t, isDelete)], a.ops)
    ensures var b := A.OnOwnerMsg(a, rev, Dispatch(Op(t, isDelete)));
            Does(b, Work(t, isDelete), a') && A.Enabled(a', A.SendFinish(t))
    ensures a'.target == rev && a'.pending == [] && t in a'.ops
    ensures a'.ops - {t} == a.ops + A.Taken(a.pending) - {t}
    ensures a'.exec == if isDelete then a.exec - {t} else a.exec + {t}
  {
    var b, b1, b2 := ComesIn(a, rev, t, isDelete);
    var b3;
    b3, a' := IsWorkedOn(b2, t, isDelete);
    DoesFour(b, A.SwitchOwner, A.TakePending, Work(t, isDelete)[2], Work(t, isDelete)[3], b1, b2, b3, a');
  }

  /** A table that is dispatched ends up running, on the record and in the executor. */
  lemma DispatchedTableRuns(d: D.Dispatcher, a: A.Agent, c: CaptureID, rev: nat, t: TableID) returns (a': A.Agent)
    requires D.Enabled(d, D.DispatchAdd(t, c)) && c in d.captures
    requires InTouch(a, rev) && A.NoDuplicates(a.pending + [Op(t, false)], a.ops)
    ensures D.Sends(d, D.DispatchAdd(t, c)) == [D.Envelope(c, Dispatch(Op(t, false)))]
    ensures Does(A.OnOwnerMsg(a, rev, Dispatch(Op(t, false))), Work(t, false), a') && A.Enabled(a', A.SendFinish(t))
    ensures A.Sends(a', A.SendFinish(t)) == [A.Report(rev, Finish(t))]
    ensures var d' := D.OnMessage(D.Step(d, D.DispatchAdd(t, c)), c, Finish(t));
            d'.Done? && d'.value.tables == d.tables[t := TableRecord(c, RunningTable)]
    ensures var a'' := A.Step(a', A.SendFinish(t)); t in a''.exec && t !in a''.ops && a''.exec == a.exec + {t}
  {
    a' := WorkIsDone(a, rev, t, false);
  }

  /** A table that is to go ends up gone from both. */
  lemma DismissedTableIsGone(d: D.Dispatcher, a: A.Agent, rev: nat, t: TableID) returns (a': A.Agent)
    requires D.Enabled(d, D.DispatchRemove(t)) && d.tables[t].captureID in d.captures
    requires InTouch(a, rev) && A.NoDuplicates(a.pending + [Op(t, true)], a.ops)
    ensures var c := d.tables[t].captureID;
            && D.Sends(d, D.DispatchRemove(t)) == [D.Envelope(c, Dispatch(Op(t, true)))]
            && Does(A.OnOwnerMsg(a, rev, Dispatch(Op(t, true))), Work(t, true), a') && A.Enabled(a', A.SendFinish(t))
            && A.Sends(a', A.SendFinish(t)) == [A.Report(rev, Finish(t))]
            && var d' := D.OnMessage(D.Step(d, D.DispatchRemove(t)), c, Finish(t));
               d'.Done? && d'.value.tables == d.tables - {t}
    ensures var a'' := A.Step(a', A.SendFinish(t)); t !in a''.exec && t !in a''.ops && a''.exec == a.exec - {t}
  {
    a' := WorkIsDone(a, rev, t, true);
  }

  /** How a table stands with the agent. */
  predicate Stands(a: A.Agent, t: TableID, status: TableStatus) {
    match status
    case RunningTable => t in a.exec && t !in a.ops
    case AddingTable => t in a.ops && !a.ops[t].isDelete
    case RemovingTable => t in a.ops && a.ops[t].isDelete
  }

  /** A capture that a new owner announces itself to is synced: its records are what its agent has. */
  lemma AnnouncedCaptureIsSynced(d: D.Dispatcher, a: A.Agent, c: CaptureID, rev: nat)
    requires D.Enabled(d, D.SendAnnounce(c)) && rev > a.ownerRev
    requires forall t :: t in d.tables && d.tables[t].captureID != c ==> t !in a.exec && t !in a.ops
    ensures D.Sends(d, D.SendAnnounce(c)) == [D.Envelope(c, Announce)]
    ensures var b := A.OnOwnerMsg(a, rev, Announce);
            && A.Enabled(b, A.SendSync) && A.Sends(b, A.SendSync) == [A.Report(rev, A.SyncOf(a))]
            && !A.Step(b, A.SendSync).needSync
    ensures var d' := D.OnMessage(D.Step(d, D.SendAnnounce(c)), c, A.SyncOf(a));
            && d'.Done? && d'.value.status[c].sync.SyncFinished?
            && forall t ::
                 if t in d'.value.tables && d'.value.tables[t].captureID == c
                 then Stands(a, t, d'.value.tables[t].status)
                 else && t !in a.exec && t !in a.ops
                      && (t in d'.value.tables <==> t in d.tables && d.tables[t].captureID != c)
                      && (t in d'.value.tables ==> d'.value.tables[t] == d.tables[t])
  {
    var s, d1 := A.SyncOf(a), D.Step(d, D.SendAnnounce(c));
    assert D.PairwiseDisjoint(s.running, s.adding, s.removing);
    var rest := D.WithoutCapture(d1.tables, c);
    var records := D.SyncRecords(c, s.running, s.adding, s.removing);
    var d' := D.OnMessage(d1, c, s);
    assert d'.Done? && d'.value.tables == rest + records;
    forall t
      ensures t in records <==> t in a.exec || t in a.ops
      ensures t in records ==> records[t].captureID == c && Stands(a, t, records[t].status)
    {
    }
  }
}
