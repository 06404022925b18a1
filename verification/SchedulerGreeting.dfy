/** When an agent may send a Sync that no owner has asked for: exactly if it does not go to the
    capture in office. */
module SchedulerGreeting {
  import opened SchedulerTypes
  import opened SchedulerProtocol
  import opened SchedulerKnowing
  import opened SchedulerOffice
  import D = DispatcherSpec
  import A = AgentSpec
  import T = TermProtocol

  // ----- An owner in the middle of its term is brought down to two captures and no tables -----

  function OwnersOf(tables: map<TableID, TableRecord>): (r: set<CaptureID>)
    ensures forall t :: t in tables ==> tables[t].captureID in r
  {
    set t | t in tables :: tables[t].captureID
  }

  /** The owner has forgotten what these captures had. */
  ghost predicate Forgot(s: System, cs: set<CaptureID>, s': System) {
    && s' == s.(owner := s'.owner)
    && s'.owner == s.owner.(tables := s'.owner.tables, jobs := s'.owner.jobs)
    && (forall t :: t in s'.owner.tables ==> t in s.owner.tables && s'.owner.tables[t] == s.owner.tables[t])
    && (forall t :: t in s'.owner.tables ==> s'.owner.tables[t].captureID !in cs)
  }

  lemma {:induction false} Forgetting(s: System, cs: set<CaptureID>) returns (es: seq<Event>, s': System)
    requires cs !! s.owner.captures
    ensures Leads(s, es, s') && Forgot(s, cs, s')
    decreases |cs|
  {
    if cs == {} {
      es, s' := [], s;
      assert Leads(s, [], s);
    } else {
      var c :| c in cs;
      var rest, s1 := Forgetting(s, cs - {c});
      var e := OwnerActs(D.Deschedule(c));
      LeadsThen(s, rest, s1, e);
      es, s' := rest + [e], Step(s1, e);
      assert cs == (cs - {c}) + {c};
    }
  }

  /** The other captures leave, and a new one comes. */
  lemma Relisting(s: System, d: CaptureID, e: CaptureID) returns (es: seq<Event>, s': System)
    requires d != e && d !in s.dropped && e !in s.dropped && e !in s.owner.captures && s.dropped <= s.down
    requires s.owner.status.Keys == s.owner.captures
    ensures Leads(s, es, s') && SameTerm(s, s') && s'.nodes == s.nodes && s'.owner.tables == s.owner.tables
    ensures s'.owner.captures == {d, e} == s'.owner.status.Keys && s'.dropped <= s'.down
    ensures d !in s'.dropped && e !in s'.dropped && s'.owner.status[e].sync == D.Uninitialized
    ensures s'.owner.status[d].sync == if d in s.owner.status then s.owner.status[d].sync else D.Uninitialized
  {
    var others := s.contacted + s.owner.captures - {d, e};
    var es1 := AllDown(s, others);
    var s1 := s.(down := s.down + others);
    var ev := OwnerActs(D.Refresh({d, e}, 0));
    LeadsThen(s, es1, s1, ev);
    es, s' := es1 + [ev], Step(s1, ev);
    D.ListedIsRefresh(s1.owner, {d, e}, 0, s'.owner);
  }

  lemma AnnouncingTo(s: System, x: CaptureID) returns (s': System)
    requires x in s.owner.status && s.owner.status[x].sync == D.Uninitialized
    requires T.Chan(NodeOf(s, x).inbox, s.rev) == []
    ensures Leads(s, [OwnerActs(D.SendAnnounce(x))], s') && SameTerm(s, s')
    ensures s'.owner.captures == s.owner.captures && s'.owner.status.Keys == s.owner.status.Keys
    ensures s'.owner.tables == s.owner.tables && s'.down == s.down && s'.dropped == s.dropped
    ensures s'.owner.status[x].sync == D.SyncSent
    ensures forall c :: c != x && c in s.owner.status ==> s'.owner.status[c] == s.owner.status[c]
    ensures NodeOf(s', x) == Announced(NodeOf(s, x), s.rev) && forall c :: c != x ==> NodeOf(s', c) == NodeOf(s, c)
  {
    var e := OwnerActs(D.SendAnnounce(x));
    var empty: seq<OwnerMsg> := [];
    assert empty + [Announce] == [Announce];
    s' := Step(s, e);
    assert Leads(s, [], s);
    LeadsThen(s, [], s, e);
    assert [] + [e] == [e];
  }

  /** The agent has been announced to, or it can be. */
  ghost predicate Approachable(s: System, d: CaptureID) {
    && d in s.owner.status
    && match s.owner.status[d].sync
       case Uninitialized => T.Chan(NodeOf(s, d).inbox, s.rev) == []
       case SyncSent => T.Chan(NodeOf(s, d).inbox, s.rev) == [Announce]
       case SyncFinished => false
  }

  lemma AnnouncingBoth(s: System, d: CaptureID, e: CaptureID) returns (es: seq<Event>, s': System)
    requires Approachable(s, d) && Scene(s, d, e, s.owner.status[d].sync, D.Uninitialized, map[])
    requires NodeOf(s, e) == INIT_NODE
    ensures Leads(s, es, s') && SameTerm(s, s') && Scene(s', d, e, D.SyncSent, D.SyncSent, map[])
    ensures NodeOf(s', e) == Announced(INIT_NODE, s.rev) && T.Chan(NodeOf(s', d).inbox, s.rev) == [Announce]
    ensures NodeOf(s', d).agent == NodeOf(s, d).agent && NodeOf(s', d).outbox == NodeOf(s, d).outbox
  {
    var s1 := AnnouncingTo(s, e);
    es, s' := [OwnerActs(D.SendAnnounce(e))], s1;
    if s.owner.status[d].sync == D.Uninitialized {
      var s2 := AnnouncingTo(s1, d);
      LeadsOn(s, es, s1, [OwnerActs(D.SendAnnounce(d))], s2);
      es, s' := es + [OwnerActs(D.SendAnnounce(d))], s2;
    }
  }

  /** A live agent that has not heard has a Sync on its way to the owner. */
  ghost predicate Spoken(s: System, d: CaptureID) {
    && s.rev > 0 && d !in s.dropped && s.dropped <= s.down && s.owner.status.Keys == s.owner.captures
    && NodeOf(s, d).agent.ownerRev == 0 && BoxOf(s, d) != [] && BoxOf(s, d)[0].msg.Sync?
    && (forall t :: t in s.owner.tables ==> s.owner.tables[t].captureID != d)
    && if d in s.owner.status then Approachable(s, d) else T.Chan(NodeOf(s, d).inbox, s.rev) == []
  }

  lemma Reducing(s: System, d: CaptureID, e: CaptureID) returns (es: seq<Event>, s': System)
    requires Spoken(s, d) && d != e && e !in s.dropped && e !in s.owner.captures && e !in OwnersOf(s.owner.tables)
    ensures Leads(s, es, s') && s'.rev == s.rev && s'.holders == s.holders && s'.nodes == s.nodes && Approachable(s', d)
    ensures Scene(s', d, e, s'.owner.status[d].sync, D.Uninitialized, map[])
  {
    var es1, s1 := Relisting(s, d, e);
    var es2, s2 := Forgetting(s1, OwnersOf(s.owner.tables) - {d, e});
    LeadsOn(s, es1, s1, es2, s2);
    es, s' := es1 + es2, s2;
    assert s'.owner.tables == map[] by {
      forall t ensures t !in s'.owner.tables {
        assert t in s.owner.tables ==> s.owner.tables[t].captureID in OwnersOf(s.owner.tables) - {d, e};
      }
    }
  }

  lemma SpokenIsUnsafe(s: System, d: CaptureID) returns (es: seq<Event>, s': System)
    requires Spoken(s, d)
    ensures Leads(s, es, s') && !Good(s')
  {
    var e := SomeOther(s.nodes.Keys + s.dropped + s.owner.captures + OwnersOf(s.owner.tables) + {d});
    var es1, s1 := Reducing(s, d, e);
    var es2, s2 := AnnouncingBoth(s1, d, e);
    LeadsOn(s, es1, s1, es2, s2);
    assert BoxOf(s2, d) == BoxOf(s, d);
    var es3, s3 := OpenedIsUnsafe(s2, d, e, 0);
    LeadsOn(s, es1 + es2, s2, es3, s3);
    es, s' := es1 + es2 + es3, s3;
  }

  // ----- Exactly who may speak -----

  /** The owner has nothing recorded for an agent that has not heard, and can announce itself. */
  lemma UnheardStage(s: System, m: System, o: T.System, d: CaptureID)
    requires InvSeen(s, m, o) && d !in s.dropped && NodeOf(s, d).agent.ownerRev == 0
    ensures forall t :: t in s.owner.tables ==> s.owner.tables[t].captureID != d
    ensures if d in s.owner.status then Approachable(s, d) else T.Chan(NodeOf(s, d).inbox, s.rev) == []
  {
    assert LiveSeems(s, m, d) && T.Tracked(o, d) && NodeFollows(m, o, d);
    assert T.RecordsOf(m.owner.tables, d) == map[];
    forall t | t in s.owner.tables ensures s.owner.tables[t].captureID != d {
      assert t !in T.RecordsOf(m.owner.tables, d);
    }
  }

  lemma UnheardBox(s: System, m: System, o: T.System, d: CaptureID)
    requires InvSeen(s, m, o) && d !in s.dropped && NodeOf(s, d).agent.ownerRev == 0
    ensures BoxOf(s, d) == [] && !NodeOf(s, d).agent.ownerHasChanged
  {
    LiveRevs(m, o, d);
    assert LiveSeems(s, m, d);
    assert T.Chan(NodeOf(m, d).outbox, HolderOf(s, s.rev)) == [];
  }

  /** In any state reached so far, the Sync that no owner in office should get. */
  lemma UnaskedIsSpoken(s: System, m: System, o: T.System, d: CaptureID)
    requires InvSeen(s, m, o) && Enabled(s, AgentActs(d, A.SendSync)) && !Discreet(s, AgentActs(d, A.SendSync))
    ensures Spoken(Step(s, AgentActs(d, A.SendSync)), d)
  {
    UnheardStage(s, m, o, d);
    UnheardBox(s, m, o, d);
    var s', n := Step(s, AgentActs(d, A.SendSync)), NodeOf(s, d);
    assert BoxOf(s', d) == [] + [A.Report(n.agent.target, A.SyncOf(n.agent))];
  }

  /** An agent that has a Sync due can send it, and all be well in every run from there, exactly if
      it has heard from the owner, or that is not in office, or the agent is gone. */
  lemma GreetingExactly(h0: CaptureID, knowing: set<CaptureID>, events: seq<Event>, s: System, d: CaptureID)
    requires Leads(Knowing(h0, knowing), events, s) && Enabled(s, AgentActs(d, A.SendSync))
    ensures AlwaysGood(Step(s, AgentActs(d, A.SendSync))) <==> Discreet(s, AgentActs(d, A.SendSync))
  {
    KnowingInv(h0, knowing);
    var m, o := RunSeems(Knowing(h0, knowing), Init(h0), T.INIT, events);
    var e := AgentActs(d, A.SendSync);
    if Discreet(s, e) {
      AllowedIsGood(s, m, o, e);
    } else {
      UnaskedIsSpoken(s, m, o, d);
      var es, s' := SpokenIsUnsafe(Step(s, e), d);
      assert After(Step(s, e), es) == Done(s');
    }
  }

  // ----- Over whole runs -----

  /** In all runs in which no capture takes office that may not. */
  ghost predicate OrderlyIsGood(s: System) {
    forall more {:trigger After(s, more)} :: Orderly(s, more) ==> After(s, more).Done? && Good(After(s, more).value)
  }

  lemma {:induction false} CleanIsOrderly(s: System, events: seq<Event>)
    requires Clean(s, events)
    ensures Orderly(s, events)
    decreases |events|
  {
    if events != [] {
      CleanIsOrderly(Step(s, events[0]), events[1..]);
    }
  }

  /** If agents may speak unasked, every run is good exactly if no agent knows the owner. */
  lemma UnsolicitedSyncIsUnsafe(h: CaptureID, knowing: set<CaptureID>)
    ensures OrderlyIsGood(Knowing(h, knowing)) <==> knowing == {}
  {
    var s := Knowing(h, knowing);
    if knowing == {} {
      assert s == Init(h);
      forall more | Orderly(s, more) ensures After(s, more).Done? && Good(After(s, more).value) {
        EveryRunIsSafe(h, more);
      }
    } else {
      var d :| d in knowing;
      var e := AgentActs(d, A.SendSync);
      KnowingInv(h, knowing);
      UnaskedIsSpoken(s, Init(h), T.INIT, d);
      var es, s' := SpokenIsUnsafe(Step(s, e), d);
      CleanIsOrderly(Step(s, e), es);
      var all := [e] + es;
      assert all[0] == e && all[1..] == es;
      assert Orderly(s, all) && After(s, all) == Done(s');
    }
  }
}
