/** What a rebalance achieves: from then on, whatever ticks and finished operations follow, no
    capture is given more tables than its share. */
module SchedulerLevel {
  import opened SchedulerTypes
  import D = DispatcherSpec
  import Balancer

  /** An action that a tick takes of itself: it adds only tables to run, each where it belongs. */
  ghost predicate Fair(d: D.Dispatcher, goal: set<TableID>, a: D.OwnerAction) {
    && !a.Refresh? && !a.RequestMove?
    && (a.DispatchAdd? ==> a.tableID in goal && Balancer.Chosen(d, a.tableID, a.target))
  }

  ghost predicate AllFair(states: seq<D.Dispatcher>, log: seq<D.OwnerAction>, goal: set<TableID>) {
    |states| == |log| + 1 && forall i {:trigger log[i]} :: 0 <= i < |log| ==> Fair(states[i], goal, log[i])
  }

  lemma FairSnoc(states: seq<D.Dispatcher>, log: seq<D.OwnerAction>, goal: set<TableID>, a: D.OwnerAction,
                 d: D.Dispatcher)
    requires AllFair(states, log, goal) && Fair(states[|log|], goal, a)
    ensures AllFair(states + [d], log + [a], goal)
  {
    var states', log' := states + [d], log + [a];
    forall i | 0 <= i < |log'| ensures Fair(states'[i], goal, log'[i]) {
      assert i < |log| ==> Fair(states[i], goal, log[i]);
    }
  }

  /** No capture keeps more than its share, and no table is being moved by hand. */
  ghost predicate Level(d: D.Dispatcher, goal: set<TableID>) {
    Balancer.Levelled(d.tables, goal, d.captures) && d.jobs == map[]
  }

  // ----- Runs of the dispatcher while the tables to run and the captures stay the same -----

  datatype Event = Acts(action: D.OwnerAction) | Relists(ts: Ts) | Finishes(captureID: CaptureID, tableID: TableID)

  ghost predicate Enabled(d: D.Dispatcher, goal: set<TableID>, e: Event) {
    match e
    case Acts(a) => D.Enabled(d, a) && Fair(d, goal, a)
    case Relists(_) => true
    case Finishes(c, t) => D.OnFinish(d, c, t).Done?
  }

  ghost function Step(d: D.Dispatcher, goal: set<TableID>, e: Event): D.Dispatcher
    requires Enabled(d, goal, e)
  {
    match e
    case Acts(a) => D.Step(d, a)
    case Relists(ts) => D.Step(d, D.Refresh(d.captures, ts))
    case Finishes(c, t) => D.OnFinish(d, c, t).value
  }

  ghost function After(d: D.Dispatcher, goal: set<TableID>, events: seq<Event>): Outcome<D.Dispatcher>
    decreases |events|
  {
    if events == [] then Done(d)
    else if Enabled(d, goal, events[0]) then After(Step(d, goal, events[0]), goal, events[1..])
    else Panic
  }

  lemma ActionKeepsLevel(d: D.Dispatcher, goal: set<TableID>, a: D.OwnerAction)
    requires Level(d, goal) && D.Enabled(d, a) && Fair(d, goal, a)
    ensures Level(D.Step(d, a), goal)
  {
    match a
    case SendAnnounce(_) =>
    case Deschedule(c) =>
      assert D.WithoutCapture(d.tables, c) == d.tables;
      assert d.jobs - D.JobsTo(d.jobs, c) == map[];
    case DispatchAdd(t, target) => Balancer.PlacingKeepsLevel(d.tables, goal, d.captures, t, target);
    case DispatchRemove(t) => Balancer.FewerStay(d.tables, goal, d.captures, D.Step(d, a).tables);
  }

  lemma FinishKeepsLevel(d: D.Dispatcher, goal: set<TableID>, c: CaptureID, t: TableID)
    requires Level(d, goal) && D.OnFinish(d, c, t).Done?
    ensures Level(D.OnFinish(d, c, t).value, goal)
  {
    Balancer.FewerStay(d.tables, goal, d.captures, D.OnFinish(d, c, t).value.tables);
  }

  lemma {:induction false} RunKeepsLevel(d: D.Dispatcher, goal: set<TableID>, events: seq<Event>)
    requires Level(d, goal) && After(d, goal, events).Done?
    ensures Level(After(d, goal, events).value, goal)
    decreases |events|
  {
    if events != [] {
      match events[0] {
        case Acts(a) => ActionKeepsLevel(d, goal, a);
        case Relists(ts) =>
        case Finishes(c, t) => FinishKeepsLevel(d, goal, c, t);
      }
      RunKeepsLevel(Step(d, goal, events[0]), goal, events[1..]);
    }
  }

  /** However actions of ticks and finished operations interleave from there, whenever no removal
      is left no capture has more tables than its share, rounded up. */
  lemma RunEndsLevel(d: D.Dispatcher, goal: set<TableID>, events: seq<Event>)
    requires Level(d, goal) && After(d, goal, events).Done?
    ensures var d' := After(d, goal, events).value;
            (forall t :: t in d'.tables ==> !d'.tables[t].status.RemovingTable?) ==>
              forall c :: c in d'.captures ==>
                Balancer.Load(d'.tables, c) <= Balancer.CeilDiv(|goal|, |d'.captures|)
  {
    RunKeepsLevel(d, goal, events);
    var d' := After(d, goal, events).value;
    if forall t :: t in d'.tables ==> !d'.tables[t].status.RemovingTable? {
      Balancer.NothingLeaving(d'.tables, goal, d'.captures);
    }
  }

  // ----- A tick is such a run -----

  function Acted(log: seq<D.OwnerAction>): seq<Event> {
    if log == [] then [] else [Acts(log[0])] + Acted(log[1..])
  }

  lemma {:induction false} TickIsRun(states: seq<D.Dispatcher>, log: seq<D.OwnerAction>, goal: set<TableID>)
    requires D.Path(states, log) && AllFair(states, log, goal)
    ensures After(states[0], goal, Acted(log)) == Done(states[|log|])
    decreases |log|
  {
    if log != [] {
      D.PathTail(states, log);
      assert Fair(states[0], goal, log[0]);
      forall i | 0 <= i < |log[1..]| ensures Fair(states[1..][i], goal, log[1..][i]) {
        assert Fair(states[i + 1], goal, log[i + 1]);
      }
      TickIsRun(states[1..], log[1..], goal);
      assert Acted(log)[1..] == Acted(log[1..]);
    }
  }
}
