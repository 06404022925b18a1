/** Ticks of the dispatcher and of the agents, which move by atomic actions, are
    stretches of runs of the whole system; so what holds of every run holds of
    every run made of ticks and handlers. */
module SchedulerRuns {
  import opened SchedulerTypes
  import opened SchedulerProtocol
  import D = DispatcherSpec
  import A = AgentSpec

  function OwnerEvents(log: seq<D.OwnerAction>): seq<Event> {
    if log == [] then [] else [OwnerActs(log[0])] + OwnerEvents(log[1..])
  }

  function AgentEvents(c: CaptureID, log: seq<A.AgentAction>): seq<Event> {
    if log == [] then [] else [AgentActs(c, log[0])] + AgentEvents(c, log[1..])
  }

  /** The messages put on the wire, one after the other. */
  function Mailed(s: System, mail: seq<D.Envelope>): System
    decreases |mail|
  {
    if mail == [] then s else Mailed(Posted(s, [mail[0]]), mail[1..])
  }

  function AllReported(s: System, n: Node, mail: seq<A.Report>): Node
    decreases |mail|
  {
    if mail == [] then n else AllReported(s, Reported(s, n, [mail[0]]), mail[1..])
  }

  /** What a stretch of moves does: it changes the owner, and its messages are on the wire. */
  lemma {:induction false} OwnerPathIsRun(s: System, states: seq<D.Dispatcher>, log: seq<D.OwnerAction>)
    requires D.Path(states, log) && states[0] == s.owner
    ensures After(s, OwnerEvents(log)) == Done(Mailed(s, D.MailOf(states, log)).(owner := states[|log|]))
    decreases |log|
  {
    if log != [] {
      D.PathTail(states, log);
      var next := Step(s, OwnerActs(log[0]));
      OwnerPathIsRun(next, states[1..], log[1..]);
      assert OwnerEvents(log)[1..] == OwnerEvents(log[1..]);
      SendsThenRest(s, states, log);
    }
  }

  lemma MailedOwner(s: System, d: D.Dispatcher, e: D.Dispatcher, mail: seq<D.Envelope>)
    ensures Mailed(s.(owner := d), mail).(owner := e) == Mailed(s, mail).(owner := e)
    decreases |mail|
  {
    if mail != [] {
      assert Posted(s.(owner := d), [mail[0]]) == Posted(s, [mail[0]]).(owner := d);
      MailedOwner(Posted(s, [mail[0]]), d, e, mail[1..]);
    }
  }

  lemma SendsThenRest(s: System, states: seq<D.Dispatcher>, log: seq<D.OwnerAction>)
    requires D.Path(states, log) && states[0] == s.owner && log != [] && D.Moves(states[0], log[0], states[1])
    ensures Mailed(Step(s, OwnerActs(log[0])), D.MailOf(states[1..], log[1..])).(owner := states[|log|])
            == Mailed(s, D.MailOf(states, log)).(owner := states[|log|])
  {
    var first, rest := D.Sends(states[0], log[0]), D.MailOf(states[1..], log[1..]);
    MailedOwner(Posted(s, first), states[1], states[|log|], rest);
    if first == [] {
      assert first + rest == rest;
    } else {
      assert first == [first[0]] && (first + rest)[1..] == rest;
    }
  }

  /** A dispatcher tick: take in the list, then move. */
  lemma TickIsRun(s: System, captures: set<CaptureID>, ts: Ts, states: seq<D.Dispatcher>, log: seq<D.OwnerAction>)
    requires ListOk(s, captures)
    requires D.Path(states, log) && D.Listed(s.owner, captures, ts, states[0])
    ensures var listed := OwnerActs(D.Refresh(captures, ts));
            After(s, [listed] + OwnerEvents(log))
            == Done(Mailed(Step(s, listed), D.MailOf(states, log)).(owner := states[|log|]))
  {
    var first := OwnerActs(D.Refresh(captures, ts));
    D.ListedIsRefresh(s.owner, captures, ts, states[0]);
    OwnerPathIsRun(Step(s, first), states, log);
    assert ([first] + OwnerEvents(log))[1..] == OwnerEvents(log);
  }

  /** An agent's tick changes the agent, and its reports are on the wire. */
  lemma {:induction false} AgentTickIsRun(s: System, c: CaptureID, states: seq<A.Agent>, log: seq<A.AgentAction>)
    requires A.Path(states, log) && states[0] == NodeOf(s, c).agent
    ensures After(s, AgentEvents(c, log)).Done?
    ensures var s' := After(s, AgentEvents(c, log)).value;
            && s' == s.(nodes := s'.nodes)
            && (forall c' :: c' != c ==> NodeOf(s', c') == NodeOf(s, c'))
            && NodeOf(s', c) == AllReported(s, NodeOf(s, c), A.MailOf(states, log)).(agent := states[|log|])
    decreases |log|
  {
    if log != [] {
      A.PathTail(states, log);
      var s1 := Step(s, AgentActs(c, log[0]));
      AgentTickIsRun(s1, c, states[1..], log[1..]);
      ReportedElsewhere(s, s1, NodeOf(s1, c), A.MailOf(states[1..], log[1..]));
      assert AgentEvents(c, log)[1..] == AgentEvents(c, log[1..]);
      ReportsThenRest(s, NodeOf(s, c), states, log);
    }
  }

  lemma ReportedAgent(s: System, n: Node, a: A.Agent, b: A.Agent, mail: seq<A.Report>)
    ensures AllReported(s, n.(agent := a), mail).(agent := b) == AllReported(s, n, mail).(agent := b)
    decreases |mail|
  {
    if mail != [] {
      assert Reported(s, n.(agent := a), [mail[0]]) == Reported(s, n, [mail[0]]).(agent := a);
      ReportedAgent(s, Reported(s, n, [mail[0]]), a, b, mail[1..]);
    }
  }

  /** Who holds which term is all that matters of the system. */
  lemma ReportedElsewhere(s: System, s': System, n: Node, mail: seq<A.Report>)
    requires s'.holders == s.holders
    ensures AllReported(s', n, mail) == AllReported(s, n, mail)
    decreases |mail|
  {
    if mail != [] {
      ReportedElsewhere(s, s', Reported(s, n, [mail[0]]), mail[1..]);
    }
  }

  lemma ReportsThenRest(s: System, n: Node, states: seq<A.Agent>, log: seq<A.AgentAction>)
    requires A.Path(states, log) && states[0] == n.agent && log != [] && A.Moves(states[0], log[0], states[1])
    ensures AllReported(s, Reported(s, n, A.Sends(n.agent, log[0])).(agent := states[1]),
                        A.MailOf(states[1..], log[1..]))
            .(agent := states[|log|])
            == AllReported(s, n, A.MailOf(states, log)).(agent := states[|log|])
  {
    var first, rest := A.Sends(states[0], log[0]), A.MailOf(states[1..], log[1..]);
    ReportedAgent(s, Reported(s, n, first), states[1], states[|log|], rest);
    if first == [] {
      assert first + rest == rest;
    } else {
      assert first == [first[0]] && (first + rest)[1..] == rest;
    }
  }
}
