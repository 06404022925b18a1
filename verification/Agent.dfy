/** The processor's agent as the object whose fields its methods update. Every
    method is shown to move by the atomic actions and handlers of `AgentSpec` alone. */
module SchedulerAgent {
  import opened SchedulerTypes
  import opened AgentSpec
  import opened ScheduleDispatcher

  const POP_BATCH := 128

  lemma TakenSnoc(front: seq<Op>, op: Op, ongoing: map<TableID, AgentOp>)
    ensures ongoing + Taken(front + [op]) == (ongoing + Taken(front))[op.tableID := AgentOp(op.isDelete, Received)]
  {
    assert (front + [op])[..|front|] == front;
  }

  /** One more operation can be taken over unless its table has one already. */
  lemma NoDuplicatesSnoc(front: seq<Op>, op: Op, ongoing: map<TableID, AgentOp>)
    requires NoDuplicates(front, ongoing)
    ensures NoDuplicates(front + [op], ongoing) <==> op.tableID !in ongoing + Taken(front)
  {
    TakenKeys(front);
    var ops := front + [op];
    if op.tableID in Taken(front) {
      var j :| 0 <= j < |front| && front[j].tableID == op.tableID;
      assert ops[j].tableID == ops[|front|].tableID;
    } else if op.tableID in ongoing {
      assert ops[|front|].tableID in ongoing;
    }
  }

  /** What the messenger and the table executor answer in a tick, by table where they are asked
      about one: that they fail, or that they want to be asked again. */
  datatype Answers = Answers(
    syncFails: bool,
    syncWaits: bool,
    checkpointFails: bool,
    startFails: set<TableID>,
    startWaits: set<TableID>,
    completeWaits: set<TableID>,
    finishFails: set<TableID>,
    finishWaits: set<TableID>)

  /** How far the executor lets an operation go. */
  function Reached(op: AgentOp, t: TableID, ans: Answers): OpStatus {
    if op.status.Received? && (t in ans.startFails || t in ans.startWaits) then Received
    else if !op.status.Finished? && t in ans.completeWaits then Processed
    else Finished
  }

  /** The operation gets done and its end can be reported. */
  predicate Leaves(op: AgentOp, t: TableID, ans: Answers, rev: nat) {
    Reached(op, t, ans).Finished? && t !in ans.finishFails && t !in ans.finishWaits && rev > 0
  }

  /** The executor or the messenger fails on the operation. */
  predicate Fails(op: AgentOp, t: TableID, ans: Answers) {
    (op.status.Received? && t in ans.startFails) || (Reached(op, t, ans).Finished? && t in ans.finishFails)
  }

  /** What the executor holds once an operation has got so far. */
  function Held(exec: set<TableID>, op: AgentOp, t: TableID, reached: OpStatus): set<TableID> {
    if !op.isDelete && op.status.Received? && !reached.Received? then exec + {t}
    else if op.isDelete && !op.status.Finished? && reached.Finished? then exec - {t}
    else exec
  }

  /** The operations, except those in `todo`, have gone as far as they could; the end of those
      that have left has been reported. */
  ghost predicate Worked(before: map<TableID, AgentOp>, todo: set<TableID>, ans: Answers, rev: nat,
                         after: map<TableID, AgentOp>, outbox: seq<Report>) {
    && after.Keys <= before.Keys
    && (forall t :: t in before && t in todo ==> t in after && after[t] == before[t])
    && (forall t :: t in before && t !in todo ==>
          if Leaves(before[t], t, ans, rev) then t !in after && Report(rev, Finish(t)) in outbox
          else t in after && after[t] == before[t].(status := Reached(before[t], t, ans)))
  }

  lemma WorkedOn(before: map<TableID, AgentOp>, todo: set<TableID>, ans: Answers, rev: nat,
                 after: map<TableID, AgentOp>, outbox: seq<Report>, t: TableID,
                 after': map<TableID, AgentOp>, outbox': seq<Report>)
    requires Worked(before, todo, ans, rev, after, outbox) && t in todo && t in before
    requires if Leaves(before[t], t, ans, rev)
             then after' == after - {t} && outbox' == outbox + [Report(rev, Finish(t))]
             else after' == after[t := before[t].(status := Reached(before[t], t, ans))] && outbox' == outbox
    ensures Worked(before, todo - {t}, ans, rev, after', outbox')
  {
  }

  /** A Sync would go through. */
  predicate SyncTaken(a: Agent, ans: Answers) {
    !ans.syncFails && !ans.syncWaits && Target(a) > 0
  }

  /** A tick gets as far as the operations. */
  predicate Proceeds(a: Agent, ans: Answers) {
    (a.needSync ==> SyncTaken(a, ans)) && !ans.checkpointFails
  }

  ghost predicate AnyFails(ops: map<TableID, AgentOp>, ans: Answers) {
    exists t :: t in ops && Fails(ops[t], t, ans)
  }

  function Stage(s: OpStatus): nat {
    match s case Received => 0 case Processed => 1 case Finished => 2
  }

  /** The same kind of operation, no less advanced. */
  predicate Further(before: AgentOp, after: AgentOp) {
    after.isDelete == before.isDelete && Stage(before.status) <= Stage(after.status)
  }

  class BaseAgent {
    var pendingOps: seq<Op>
    var tableOperations: map<TableID, AgentOp>
    var needSyncNow: bool
    var ownerCaptureID: CaptureID
    var ownerRev: nat
    var ownerHasChanged: bool

    // The table executor's tables, and the revision of the owner the messenger sends to.
    var executorTables: set<TableID>
    var messengerRev: nat

    // What the messenger was given to send in the current tick, and what it and the executor
    // answer: nothing is asked of them twice in a tick.
    var outbox: seq<Report>
    var answers: Answers

    // The actions the current tick has taken, and the states they led through.
    ghost var path: seq<Agent>
    ghost var taken: seq<AgentAction>

    ghost function Abs(): Agent
      reads this
    {
      Agent(ownerRev, ownerHasChanged, messengerRev, needSyncNow, pendingOps, tableOperations, executorTables)
    }

    ghost predicate OnTrack()
      reads this
    {
      Path(path, taken) && path[|taken|] == Abs() && outbox == MailOf(path, taken)
    }

    constructor ()
      ensures Abs() == INIT
    {
      pendingOps, tableOperations, needSyncNow := [], map[], true;
      ownerCaptureID, ownerRev, ownerHasChanged := 0, 0, false;
      executorTables, messengerRev := {}, 0;
      answers := Answers(false, false, false, {}, {}, {}, {}, {});
    }

    ghost method Took(before: Agent, act: AgentAction)
      requires Path(path, taken) && path[|taken|] == before && Moves(before, act, Abs())
      requires outbox == MailOf(path, taken) + Sends(before, act)
      modifies this`taken, this`path
      ensures path == old(path) + [Abs()] && taken == old(taken) + [act] && OnTrack()
    {
      PathSnoc(path, taken, act, Abs());
      MailSnoc(path, taken, act, Abs());
      path, taken := path + [Abs()], taken + [act];
    }

    /** Empties the queue in batches; the order is kept. */
    method PopPendingOps() returns (ops: seq<Op>)
      modifies this`pendingOps
      ensures ops == old(pendingOps) && pendingOps == []
    {
      ops := [];
      while pendingOps != []
        invariant ops + pendingOps == old(pendingOps)
        decreases |pendingOps|
      {
        var n := if |pendingOps| < POP_BATCH then |pendingOps| else POP_BATCH;
        ops := ops + pendingOps[..n];
        pendingOps := pendingOps[n..];
      }
    }

    /** Adds the operations to those under way; stops at the first table that has one already. */
    method AddOperations(ops: seq<Op>) returns (ok: bool)
      modifies this`tableOperations
      ensures ok <==> NoDuplicates(ops, old(tableOperations))
      ensures ok ==> tableOperations == old(tableOperations) + Taken(ops)
    {
      var i := 0;
      while i < |ops|
        invariant 0 <= i <= |ops|
        invariant NoDuplicates(ops[..i], old(tableOperations))
        invariant tableOperations == old(tableOperations) + Taken(ops[..i])
      {
        var op := ops[i];
        assert ops[..i + 1] == ops[..i] + [op];
        TakenSnoc(ops[..i], op, old(tableOperations));
        NoDuplicatesSnoc(ops[..i], op, old(tableOperations));
        if op.tableID in tableOperations {
          return false;
        }
        tableOperations := tableOperations[op.tableID := AgentOp(op.isDelete, Received)];
        i := i + 1;
      }
      assert ops[..i] == ops;
      return true;
    }

    /** Moves the queue into the table of operations. `ok` is false, and the source
        reports a duplicate operation, exactly if some table would have two. */
    method TakeOperations() returns (ok: bool)
      requires OnTrack()
      modifies this`pendingOps, this`tableOperations, this`taken, this`path
      ensures ok <==> NoDuplicates(old(pendingOps), old(tableOperations))
      ensures ok ==> OnTrack() && path[0] == old(path[0])
      ensures ok ==> pendingOps == [] && tableOperations == old(tableOperations) + Taken(old(pendingOps))
    {
      ghost var before := Abs();
      var ops := PopPendingOps();
      ok := AddOperations(ops);
      if ok {
        Took(before, TakePending);
      }
    }

    /** What a Sync reports: each table once, those with an operation under way as
        adding or removing and all others as running. */
    method CollectStatuses() returns (running: seq<TableID>, adding: seq<TableID>, removing: seq<TableID>)
      ensures Distinct(running) && Distinct(adding) && Distinct(removing)
      ensures Sync(Elements(running), Elements(adding), Elements(removing)) == SyncOf(Abs())
    {
      adding, removing, running := [], [], [];
      var todo := tableOperations.Keys;
      while todo != {}
        invariant todo <= tableOperations.Keys
        invariant Distinct(adding) && Elements(adding) == set t | t in tableOperations && t !in todo
                  && !tableOperations[t].isDelete
        invariant Distinct(removing) && Elements(removing) == set t | t in tableOperations && t !in todo
                  && tableOperations[t].isDelete
      {
        var t :| t in todo;
        if !tableOperations[t].isDelete {
          ElementsAppend(adding, t);
          adding := adding + [t];
        } else {
          ElementsAppend(removing, t);
          removing := removing + [t];
        }
        todo := todo - {t};
      }
      todo := executorTables;
      while todo != {}
        invariant todo <= executorTables
        invariant Distinct(running) && Elements(running) == executorTables - todo - tableOperations.Keys
      {
        var t :| t in todo;
        if t !in tableOperations {
          ElementsAppend(running, t);
          running := running + [t];
        }
        todo := todo - {t};
      }
    }

    /** Sends the Sync; there is nobody to send to before the first owner is known. */
    method SendSync() returns (done: bool)
      requires OnTrack() && needSyncNow && !ownerHasChanged
      modifies this`needSyncNow, this`outbox, this`taken, this`path
      ensures OnTrack() && path[0] == old(path[0])
      ensures done <==> !answers.syncFails && !answers.syncWaits && messengerRev > 0
      ensures needSyncNow == !done
      ensures outbox == old(outbox) + if done then [Report(messengerRev, SyncOf(Abs()))] else []
    {
      var running, adding, removing := CollectStatuses();
      done := !answers.syncFails && !answers.syncWaits && messengerRev > 0;
      if done {
        ghost var before := Abs();
        outbox := outbox + [Report(messengerRev, Sync(Elements(running), Elements(adding), Elements(removing)))];
        needSyncNow := false;
        Took(before, AgentAction.SendSync);
      }
    }

    /** The executor accepts an operation, or asks to be called again. */
    method Start(t: TableID) returns (done: bool)
      requires OnTrack() && t in tableOperations && tableOperations[t].status.Received?
      modifies this`tableOperations, this`executorTables, this`taken, this`path
      ensures OnTrack() && path[0] == old(path[0])
      ensures tableOperations == if done then old(tableOperations)[t := old(tableOperations)[t].(status := Processed)]
                                 else old(tableOperations)
      ensures done <==> t !in answers.startWaits
      ensures executorTables == if done && !old(tableOperations)[t].isDelete then old(executorTables) + {t}
                                else old(executorTables)
    {
      done := t !in answers.startWaits;
      if done {
        ghost var before := Abs();
        if !tableOperations[t].isDelete {
          executorTables := executorTables + {t};
        }
        tableOperations := tableOperations[t := tableOperations[t].(status := Processed)];
        Took(before, if before.ops[t].isDelete then Remove(t) else Add(t));
      }
    }

    /** The executor says an operation is complete; a removed table is gone by then. */
    method Complete(t: TableID) returns (done: bool)
      requires OnTrack() && t in tableOperations && tableOperations[t].status.Processed?
      modifies this`tableOperations, this`executorTables, this`taken, this`path
      ensures OnTrack() && path[0] == old(path[0])
      ensures tableOperations == if done then old(tableOperations)[t := old(tableOperations)[t].(status := Finished)]
                                 else old(tableOperations)
      ensures done <==> t !in answers.completeWaits
      ensures executorTables == if done && old(tableOperations)[t].isDelete then old(executorTables) - {t}
                                else old(executorTables)
    {
      done := t !in answers.completeWaits;
      if done {
        ghost var before := Abs();
        if tableOperations[t].isDelete {
          executorTables := executorTables - {t};
        }
        tableOperations := tableOperations[t := tableOperations[t].(status := Finished)];
        Took(before, if before.ops[t].isDelete then RemoveFinished(t) else AddFinished(t));
      }
    }

    method FinishOperation(t: TableID) returns (ok: bool)
      requires OnTrack() && t in tableOperations && tableOperations[t].status.Finished? && !needSyncNow
      modifies this`tableOperations, this`outbox, this`taken, this`path
      ensures OnTrack() && path[0] == old(path[0])
      ensures ok <==> t !in answers.finishFails
      ensures t !in tableOperations <==> t !in answers.finishFails && t !in answers.finishWaits && messengerRev > 0
      ensures if t in tableOperations then tableOperations == old(tableOperations) && outbox == old(outbox)
              else tableOperations == old(tableOperations) - {t}
                   && outbox == old(outbox) + [Report(messengerRev, Finish(t))]
    {
      ok := t !in answers.finishFails;
      if ok && t !in answers.finishWaits && messengerRev > 0 {
        ghost var before := Abs();
        outbox := outbox + [Report(messengerRev, Finish(t))];
        tableOperations := tableOperations - {t};
        Took(before, SendFinish(t));
      }
    }

    /** Takes an operation as far as the executor and the messenger let it go. */
    method ProcessOne(t: TableID) returns (ok: bool)
      requires OnTrack() && !needSyncNow && t in tableOperations
      modifies this`tableOperations, this`executorTables, this`outbox, this`taken, this`path
      ensures OnTrack() && path[0] == old(path[0])
      ensures ok <==> !Fails(old(tableOperations)[t], t, answers)
      ensures executorTables == Held(old(executorTables), old(tableOperations)[t], t,
                                     Reached(old(tableOperations)[t], t, answers))
      ensures if Leaves(old(tableOperations)[t], t, answers, messengerRev)
              then tableOperations == old(tableOperations) - {t}
                   && outbox == old(outbox) + [Report(messengerRev, Finish(t))]
              else tableOperations == old(tableOperations)[t := old(tableOperations)[t].(
                                        status := Reached(old(tableOperations)[t], t, answers))]
                   && outbox == old(outbox)
    {
      if tableOperations[t].status.Received? {
        if t in answers.startFails {
          return false;
        }
        var _ := Start(t);
      }
      if tableOperations[t].status.Processed? {
        var _ := Complete(t);
      }
      if tableOperations[t].status.Finished? {
        ok := FinishOperation(t);
        return;
      }
      return true;
    }

    /** Works on every operation; an error of the executor or the messenger ends the pass early. */
    method ProcessOperations() returns (ok: bool)
      requires OnTrack() && !needSyncNow
      modifies this`tableOperations, this`executorTables, this`outbox, this`taken, this`path
      ensures OnTrack() && path[0] == old(path[0])
      ensures forall t :: t in tableOperations ==>
                t in old(tableOperations) && Further(old(tableOperations)[t], tableOperations[t])
      ensures forall t :: t in old(tableOperations) && t !in tableOperations ==>
                Report(messengerRev, Finish(t)) in outbox
      ensures old(outbox) <= outbox
      ensures ok <==> !AnyFails(old(tableOperations), answers)
      ensures ok ==> Worked(old(tableOperations), {}, answers, messengerRev, tableOperations, outbox)
    {
      var todo := tableOperations.Keys;
      while todo != {}
        invariant OnTrack() && path[0] == old(path[0]) && todo <= old(tableOperations).Keys
        invariant old(outbox) <= outbox
        invariant Worked(old(tableOperations), todo, answers, messengerRev, tableOperations, outbox)
        invariant forall t :: t in old(tableOperations) && Fails(old(tableOperations)[t], t, answers) ==> t in todo
      {
        var t :| t in todo;
        ghost var ops, mail := tableOperations, outbox;
        ok := ProcessOne(t);
        WorkedOn(old(tableOperations), todo, answers, messengerRev, ops, mail, t, tableOperations, outbox);
        todo := todo - {t};
        if !ok {
          return;
        }
      }
      return true;
    }

    /** Turns to the new owner, if there is one. */
    method BeginTick()
      modifies this`ownerHasChanged, this`messengerRev, this`outbox, this`taken, this`path
      ensures OnTrack() && path[0] == old(Abs()) && outbox == [] && !ownerHasChanged
      ensures messengerRev == Target(old(Abs()))
    {
      outbox := [];
      path, taken := [Abs()], [];
      if ownerHasChanged {
        ghost var before := Abs();
        ownerHasChanged := false;
        messengerRev := ownerRev;
        Took(before, SwitchOwner);
      }
    }

    /** Takes the queue over and works on every operation. */
    method WorkOff() returns (ok: bool, ghost duplicate: bool)
      requires OnTrack() && !needSyncNow
      modifies this`pendingOps, this`tableOperations, this`executorTables, this`outbox, this`taken, this`path
      ensures old(outbox) <= outbox
      ensures duplicate <==> !NoDuplicates(old(pendingOps), old(tableOperations))
      ensures !duplicate ==> OnTrack() && path[0] == old(path[0])
      ensures var ops := old(tableOperations) + Taken(old(pendingOps));
              && (ok <==> !duplicate && !AnyFails(ops, answers))
              && (ok ==> pendingOps == [] && Worked(ops, {}, answers, messengerRev, tableOperations, outbox))
    {
      ok := TakeOperations();
      if !ok {
        return false, true;
      }
      duplicate := false;
      ok := ProcessOperations();
    }

    /** One tick, in which the messenger and the executor answer as given. Whatever it does before a
        duplicate operation is reported, it moves by enabled actions from where it started; and it only
        reports one if there is one. A Sync that is due comes first. Every operation goes as far as the answers let
        it, and is gone, its end reported, if they let it go all the way. */
    method Tick(newAnswers: Answers) returns (ok: bool, ghost duplicate: bool)
      modifies this
      ensures needSyncNow <==> old(needSyncNow) && !SyncTaken(old(Abs()), newAnswers)
      ensures old(needSyncNow) && !needSyncNow ==> [Report(messengerRev, SyncOf(old(Abs())))] <= outbox
      ensures messengerRev == Target(old(Abs()))
      ensures var ops := old(tableOperations) + Taken(old(pendingOps));
              Proceeds(old(Abs()), newAnswers) ==>
                && (duplicate <==> !NoDuplicates(old(pendingOps), old(tableOperations)))
                && (ok <==> !duplicate && !AnyFails(ops, newAnswers))
                && (ok ==> pendingOps == [] && Worked(ops, {}, newAnswers, messengerRev, tableOperations, outbox))
      ensures !duplicate ==> OnTrack() && path[0] == old(Abs())
      ensures duplicate ==> !ok && !NoDuplicates(old(pendingOps), old(tableOperations))
      ensures ownerRev == old(ownerRev) && ownerCaptureID == old(ownerCaptureID) && !ownerHasChanged
    {
      duplicate := false;
      answers := newAnswers;
      BeginTick();
      if needSyncNow {
        var done := SendSync();
        if !done {
          ok := !answers.syncFails;
          return;
        }
      }
      // Checkpoint messages carry no table operations; only their failure matters here.
      ok := !answers.checkpointFails;
      if !ok {
        return;
      }
      ok, duplicate := WorkOff();
    }

    // ----- Handlers -----

    /** `fits` is false where the source panics: two owners claim the same revision. */
    method UpdateOwnerInfo(owner: CaptureID, rev: nat) returns (fits: bool, accepted: bool)
      modifies this`ownerRev, this`ownerCaptureID, this`ownerHasChanged, this`pendingOps
      ensures fits <==> rev != old(ownerRev) || owner == old(ownerCaptureID)
      ensures fits ==> (accepted <==> rev >= old(ownerRev))
      ensures if rev > old(ownerRev)
              then Abs() == old(Abs()).(ownerRev := rev, ownerHasChanged := true, pending := [])
                   && ownerCaptureID == owner
              else Abs() == old(Abs()) && ownerCaptureID == old(ownerCaptureID)
    {
      if ownerRev < rev {
        ownerRev := rev;
        ownerCaptureID := owner;
        ownerHasChanged := true;
        pendingOps := [];
        return true, true;
      }
      if ownerRev > rev {
        return true, false;
      }
      if ownerCaptureID != owner {
        return false, false;
      }
      return true, true;
    }

    method OnOwnerDispatchedTask(owner: CaptureID, rev: nat, t: TableID, isDelete: bool) returns (ok: bool)
      modifies this`ownerRev, this`ownerCaptureID, this`ownerHasChanged, this`pendingOps
      ensures ok <==> rev != old(ownerRev) || owner == old(ownerCaptureID)
      ensures Abs() == if ok then OnOwnerMsg(old(Abs()), rev, Dispatch(Op(t, isDelete))) else old(Abs())
    {
      var accepted;
      ok, accepted := UpdateOwnerInfo(owner, rev);
      if ok && accepted {
        pendingOps := pendingOps + [Op(t, isDelete)];
      }
    }

    method OnOwnerAnnounce(owner: CaptureID, rev: nat) returns (ok: bool)
      modifies this`ownerRev, this`ownerCaptureID, this`ownerHasChanged, this`pendingOps, this`needSyncNow
      ensures ok <==> rev != old(ownerRev) || owner == old(ownerCaptureID)
      ensures Abs() == if ok then OnOwnerMsg(old(Abs()), rev, Announce) else old(Abs())
    {
      var accepted;
      ok, accepted := UpdateOwnerInfo(owner, rev);
      if ok && accepted {
        needSyncNow := true;
      }
    }
  }
}
