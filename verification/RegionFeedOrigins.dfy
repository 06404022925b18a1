/** Where the matched rows of a feed come from, over all its subscriptions. */
module RegionFeedOrigins {
  import opened RegionFeedSpec

  /** The places of the two events that a matched row is made of. */
  datatype Origin = Origin(prewrite: nat, commit: nat)

  /** The number of the subscription that the n-th event belongs to. */
  function Subscription(events: seq<Event>, n: nat): nat
    requires n <= |events|
  {
    if n == 0 then 0 else Subscription(events, n - 1) + (if events[n - 1].Reconnect? then 1 else 0)
  }

  predicate IsAt(events: seq<Event>, i: nat, e: Entry) {
    i < |events| && events[i] == Got(e, true)
  }

  /** The entry came in the subscription that is on after `n` events. */
  predicate Recent(events: seq<Event>, n: nat, i: nat, e: Entry)
    requires n <= |events|
  {
    i < n && IsAt(events, i, e) && Subscription(events, i) == Subscription(events, n)
  }

  /** The event takes the place of a prewrite for the key, or takes it back. */
  predicate Supersedes(e: Event, k: MatchKey) {
    && e.Got? && e.inSpan && IsFor(e.entry, k)
    && (e.entry.kind.Rollback? || (e.entry.kind.Prewrite? && e.entry.value != ""))
  }

  /** The prewrite for the key at `i` still stands at `n`. */
  ghost predicate Stands(events: seq<Event>, i: nat, n: nat, k: MatchKey)
    requires n <= |events|
  {
    forall j {:trigger events[j]} :: i < j < n ==> !Supersedes(events[j], k)
  }

  lemma StandsOn(events: seq<Event>, i: nat, n: nat, k: MatchKey)
    requires n < |events| && Stands(events, i, n, k) && !Supersedes(events[n], k)
    ensures Stands(events, i, n + 1, k)
  {
  }

  /** The row is a commit with the values of a prewrite that stands when the commit comes, both for
      the same key and start and of one subscription. */
  ghost predicate IsOrigin(events: seq<Event>, n: nat, row: Entry, o: Origin)
    requires n <= |events|
  {
    && o.prewrite < n && events[o.prewrite].Got? && o.commit < n && events[o.commit].Got?
    && var (prewrite, commit) := (events[o.prewrite].entry, events[o.commit].entry);
    && IsAt(events, o.prewrite, prewrite) && prewrite.kind.Prewrite?
    && IsAt(events, o.commit, commit) && commit.kind.Commit?
    && prewrite.startTs == commit.startTs && prewrite.key == commit.key && Combines(row, commit, prewrite)
    && Stands(events, o.prewrite, o.commit, MatchKey(commit.startTs, commit.key))
    && Subscription(events, o.prewrite) == Subscription(events, o.commit)
  }

  /** Every matched row has an origin, and no two share a prewrite or a commit. */
  ghost predicate OriginsOk(events: seq<Event>, n: nat, out: seq<Out>, origins: map<nat, Origin>)
    requires n <= |events|
  {
    && (forall i: nat :: i in origins <==> i < |out| && out[i].Row? && out[i].entry.kind.Commit?)
    && (forall i: nat :: i in origins ==> IsOrigin(events, n, out[i].entry, origins[i]))
    && (forall i: nat, j: nat :: i in origins && j in origins && i != j ==>
          origins[i].prewrite != origins[j].prewrite && origins[i].commit != origins[j].commit)
  }

  /** Where the prewrites that wait came, none of them used. */
  ghost predicate HeldOk(events: seq<Event>, n: nat, unmatched: map<MatchKey, Entry>, held: map<MatchKey, nat>,
                         origins: map<nat, Origin>)
    requires n <= |events|
  {
    && unmatched.Keys <= held.Keys
    && (forall k :: k in unmatched ==>
          && Recent(events, n, held[k], unmatched[k]) && unmatched[k].kind.Prewrite? && KeyOf(unmatched[k]) == k
          && forall i: nat :: i in origins ==> origins[i].prewrite != held[k])
  }

  /** Where the commits that wait came, none of them used. */
  ghost predicate CachedOk(events: seq<Event>, n: nat, cached: seq<Entry>, places: seq<nat>, origins: map<nat, Origin>)
    requires n <= |events|
  {
    && |places| == |cached|
    && (forall a :: 0 <= a < |cached| ==>
          && Recent(events, n, places[a], cached[a]) && cached[a].kind.Commit?
          && forall i: nat :: i in origins ==> origins[i].commit != places[a])
    && (forall a, b :: 0 <= a < b < |places| ==> places[a] != places[b])
  }

  ghost predicate AllStand(events: seq<Event>, n: nat, unmatched: map<MatchKey, Entry>, held: map<MatchKey, nat>)
    requires n <= |events|
  {
    forall k :: k in unmatched && k in held ==> Stands(events, held[k], n, k)
  }

  datatype Trace = Trace(held: map<MatchKey, nat>, places: seq<nat>, origins: map<nat, Origin>)

  /** While the feed is live, what waits still stands. */
  ghost predicate Traced(events: seq<Event>, n: nat, m: Matcher, out: seq<Out>, t: Trace, live: bool)
    requires n <= |events|
  {
    && (live ==> AllStand(events, n, m.unmatched, t.held))
    && OriginsOk(events, n, out, t.origins)
    && HeldOk(events, n, m.unmatched, t.held, t.origins)
    && CachedOk(events, n, m.cached, t.places, t.origins)
  }

  // ----- Another event -----

  lemma OriginsLater(events: seq<Event>, n: nat, out: seq<Out>, origins: map<nat, Origin>)
    requires n < |events| && OriginsOk(events, n, out, origins)
    ensures OriginsOk(events, n + 1, out, origins)
  {
    forall i: nat | i in origins ensures IsOrigin(events, n + 1, out[i].entry, origins[i]) {
      assert IsOrigin(events, n, out[i].entry, origins[i]);
    }
  }

  lemma Later(events: seq<Event>, n: nat, m: Matcher, out: seq<Out>, t: Trace, live: bool)
    requires n < |events| && Traced(events, n, m, out, t, live) && !events[n].Reconnect?
    requires live ==> forall k :: k in m.unmatched ==> !Supersedes(events[n], k)
    ensures Traced(events, n + 1, m, out, t, live)
    ensures forall i: nat :: i in t.origins ==> t.origins[i].prewrite != n && t.origins[i].commit != n
    ensures n !in t.places
  {
    OriginsLater(events, n, out, t.origins);
    assert Subscription(events, n + 1) == Subscription(events, n);
    if live {
      forall k | k in m.unmatched ensures Stands(events, t.held[k], n + 1, k) {
        StandsOn(events, t.held[k], n, k);
      }
    }
  }

  lemma NotMatched(events: seq<Event>, n: nat, out: seq<Out>, origins: map<nat, Origin>, o: Out)
    requires n <= |events| && OriginsOk(events, n, out, origins) && (o.Row? ==> !o.entry.kind.Commit?)
    ensures OriginsOk(events, n, out + [o], origins)
  {
    forall i: nat | i in origins ensures IsOrigin(events, n, (out + [o])[i].entry, origins[i]) {
      assert IsOrigin(events, n, out[i].entry, origins[i]);
    }
  }

  /** A matched row is put out. */
  lemma Matched(events: seq<Event>, n: nat, out: seq<Out>, origins: map<nat, Origin>, commit: Entry, prewrite: Entry,
                o: Origin)
    requires n <= |events| && OriginsOk(events, n, out, origins)
    requires Recent(events, n, o.prewrite, prewrite) && prewrite.kind.Prewrite?
    requires Recent(events, n, o.commit, commit) && commit.kind.Commit? && KeyOf(prewrite) == KeyOf(commit)
    requires forall i: nat :: i in origins ==> origins[i].prewrite != o.prewrite && origins[i].commit != o.commit
    requires Stands(events, o.prewrite, n, KeyOf(commit))
    ensures OriginsOk(events, n, out + [Row(Filled(commit, prewrite))], origins[|out| := o])
  {
    var row := Filled(commit, prewrite);
    var out', origins' := out + [Row(row)], origins[|out| := o];
    assert IsOrigin(events, n, row, o);
    forall i: nat | i in origins' ensures IsOrigin(events, n, out'[i].entry, origins'[i]) {
      assert i < |out| ==> IsOrigin(events, n, out[i].entry, origins[i]);
    }
  }

  /** The prewrite is used up. */
  lemma HeldLess(events: seq<Event>, n: nat, u: map<MatchKey, Entry>, held: map<MatchKey, nat>,
                 origins: map<nat, Origin>,
                 k: MatchKey, at: nat, commit: nat)
    requires n <= |events| && HeldOk(events, n, u, held, origins) && k in u
    ensures HeldOk(events, n, u - {k}, held, origins[at := Origin(held[k], commit)])
  {
    var origins' := origins[at := Origin(held[k], commit)];
    forall q, i: nat | q in u - {k} && i in origins' ensures origins'[i].prewrite != held[q] {
      assert IsAt(events, held[q], u[q]) && IsAt(events, held[k], u[k]);
    }
  }

  lemma CachedLess(events: seq<Event>, n: nat, cached: seq<Entry>, places: seq<nat>, origins: map<nat, Origin>,
                   at: nat, prewrite: nat)
    requires n <= |events| && cached != [] && CachedOk(events, n, cached, places, origins)
    ensures CachedOk(events, n, cached[1..], places[1..], origins[at := Origin(prewrite, places[0])])
  {
  }

  lemma CachedStays(events: seq<Event>, n: nat, cached: seq<Entry>, places: seq<nat>, origins: map<nat, Origin>,
                    at: nat, o: Origin)
    requires n <= |events| && CachedOk(events, n, cached, places, origins) && o.commit !in places
    ensures CachedOk(events, n, cached, places, origins[at := o])
  {
  }

  // ----- Initialization -----

  lemma {:induction false} MatchAllLeaves(u: map<MatchKey, Entry>, cached: seq<Entry>)
    ensures forall k :: k in MatchAll(u, cached).0 ==> k in u && MatchAll(u, cached).0[k] == u[k]
    decreases |cached|
  {
    if cached != [] {
      MatchAllLeaves(if KeyOf(cached[0]) in u then u - {KeyOf(cached[0])} else u, cached[1..]);
    }
  }

  /** The cached commits are matched, up to the first that cannot be turned into a row. */
  lemma {:induction false} InitTraced(events: seq<Event>, n: nat, f: Feed, u: map<MatchKey, Entry>, cached: seq<Entry>,
                                      t: Trace)
    returns (t': Trace)
    requires n <= |events| && Traced(events, n, Matcher(u, cached), f.out, t, true)
    ensures Traced(events, n, Matcher(MatchAll(u, cached).0, []), EmitRows(f, MatchAll(u, cached).1).out, t', true)
    decreases |cached|
  {
    t' := t.(places := []);
    if cached != [] {
      var c, rest := cached[0], cached[1..];
      var k := KeyOf(c);
      if k !in u {
        assert CachedOk(events, n, rest, t.places[1..], t.origins);
        t' := InitTraced(events, n, f, u, rest, t.(places := t.places[1..]));
      } else if c.known {
        t' := InitMatched(events, n, f, u, cached, t);
      } else {
        MatchAllLeaves(u, cached);
        MatchAllStops(f, u, cached);
      }
    }
  }

  lemma MatchAllStops(f: Feed, u: map<MatchKey, Entry>, cached: seq<Entry>)
    requires cached != [] && KeyOf(cached[0]) in u && !cached[0].known
    ensures EmitRows(f, MatchAll(u, cached).1).out == f.out
  {
    assert MatchAll(u, cached).1[0] == Filled(cached[0], u[KeyOf(cached[0])]);
  }

  lemma MatchAllGoesOn(f: Feed, u: map<MatchKey, Entry>, cached: seq<Entry>)
    requires cached != [] && KeyOf(cached[0]) in u && cached[0].known
    ensures var k := KeyOf(cached[0]);
            var rest := MatchAll(u - {k}, cached[1..]);
            && MatchAll(u, cached).0 == rest.0
            && EmitRows(f, MatchAll(u, cached).1) == EmitRows(f.(out := f.out + [Row(Filled(cached[0], u[k]))]), rest.1)
  {
    var row, rows := Filled(cached[0], u[KeyOf(cached[0])]), MatchAll(u - {KeyOf(cached[0])}, cached[1..]).1;
    assert MatchAll(u, cached).1 == [row] + rows;
    assert ([row] + rows)[1..] == rows;
  }

  lemma {:induction false} InitMatched(events: seq<Event>, n: nat, f: Feed, u: map<MatchKey, Entry>,
                                       cached: seq<Entry>, t: Trace)
    returns (t': Trace)
    requires n <= |events| && Traced(events, n, Matcher(u, cached), f.out, t, true)
    requires cached != [] && KeyOf(cached[0]) in u && cached[0].known
    ensures Traced(events, n, Matcher(MatchAll(u, cached).0, []), EmitRows(f, MatchAll(u, cached).1).out, t', true)
    decreases |cached|, 0
  {
    var c, k, at := cached[0], KeyOf(cached[0]), |f.out|;
    var o := Origin(t.held[k], t.places[0]);
    Matched(events, n, f.out, t.origins, c, u[k], o);
    HeldLess(events, n, u, t.held, t.origins, k, at, o.commit);
    CachedLess(events, n, cached, t.places, t.origins, at, o.prewrite);
    MatchAllGoesOn(f, u, cached);
    var f' := f.(out := f.out + [Row(Filled(c, u[k]))]);
    t' := InitTraced(events, n, f', u - {k}, cached[1..], Trace(t.held, t.places[1..], t.origins[at := o]));
  }

  // ----- Steps -----

  lemma PutTraced(events: seq<Event>, n: nat, m: Matcher, out: seq<Out>, t: Trace, e: Entry) returns (t': Trace)
    requires n < |events| && Traced(events, n, m, out, t, true) && events[n] == Got(e, true) && e.kind.Prewrite?
    ensures Traced(events, n + 1, Put(m, e), out, t', true)
  {
    Later(events, n, m, out, t, false);
    t' := t;
    if !(KeyOf(e) in m.unmatched && e.value == "") {
      t' := t.(held := t.held[KeyOf(e) := n]);
      assert Recent(events, n + 1, n, e);
    }
    forall k | k in Put(m, e).unmatched ensures Stands(events, t'.held[k], n + 1, k) {
      if t'.held[k] != n {
        StandsOn(events, t.held[k], n, k);
      }
    }
  }

  lemma CommitTraced(events: seq<Event>, n: nat, f: Feed, t: Trace, e: Entry) returns (t': Trace)
    requires n < |events| && Traced(events, n, f.matcher, f.out, t, true) && events[n] == Got(e, true) && e.kind.Commit?
    ensures var g := HandleCommit(f, e); Traced(events, n + 1, g.matcher, g.out, t', true)
  {
    Later(events, n, f.matcher, f.out, t, true);
    assert Recent(events, n + 1, n, e);
    var k := KeyOf(e);
    t' := t;
    if e.commitTs > f.lastResolvedTs {
      if k in f.matcher.unmatched {
        t' := CommitMatched(events, n, f, t, e);
      } else if !f.initialized {
        t' := t.(places := t.places + [n]);
      }
    }
  }

  lemma CommitEmits(f: Feed, e: Entry)
    requires e.commitTs > f.lastResolvedTs && KeyOf(e) in f.matcher.unmatched
    ensures var (k, u) := (KeyOf(e), f.matcher.unmatched);
            && HandleCommit(f, e).matcher == f.matcher.(unmatched := u - {k})
            && HandleCommit(f, e).out == if e.known then f.out + [Row(Filled(e, u[k]))] else f.out
  {
    var row := Filled(e, f.matcher.unmatched[KeyOf(e)]);
    var g := f.(matcher := f.matcher.(unmatched := f.matcher.unmatched - {KeyOf(e)}));
    assert [row][1..] == [];
    assert EmitRows(g, [row]) == if e.known then EmitRows(g.(out := g.out + [Row(row)]), []) else g.(failed := true);
  }

  lemma CommitMatched(events: seq<Event>, n: nat, f: Feed, t: Trace, e: Entry) returns (t': Trace)
    requires n < |events| && Traced(events, n + 1, f.matcher, f.out, t, true) && n !in t.places
    requires Recent(events, n + 1, n, e) && e.kind.Commit?
    requires e.commitTs > f.lastResolvedTs && KeyOf(e) in f.matcher.unmatched
    requires forall i: nat :: i in t.origins ==> t.origins[i].commit != n
    ensures var g := HandleCommit(f, e); Traced(events, n + 1, g.matcher, g.out, t', true)
  {
    var k, u := KeyOf(e), f.matcher.unmatched;
    CommitEmits(f, e);
    if e.known {
      var o := Origin(t.held[k], n);
      Matched(events, n + 1, f.out, t.origins, e, u[k], o);
      HeldLess(events, n + 1, u, t.held, t.origins, k, |f.out|, n);
      CachedStays(events, n + 1, f.matcher.cached, t.places, t.origins, |f.out|, o);
      t' := t.(origins := t.origins[|f.out| := o]);
    } else {
      t' := t;
    }
  }

  lemma EntryTraced(events: seq<Event>, n: nat, f: Feed, t: Trace, e: Entry) returns (t': Trace)
    requires n < |events| && Traced(events, n, f.matcher, f.out, t, true) && events[n] == Got(e, true)
    ensures var g := HandleEntry(f, e, true); Traced(events, n + 1, g.matcher, g.out, t', true)
  {
    match e.kind
    case Initialized => t' := StartTraced(events, n, f, t);
    case Committed =>
      Later(events, n, f.matcher, f.out, t, true);
      NotMatched(events, n + 1, f.out, t.origins, Row(e));
      t' := t;
    case Prewrite => t' := PutTraced(events, n, f.matcher, f.out, t, e);
    case Commit => t' := CommitTraced(events, n, f, t, e);
    case Rollback =>
      Later(events, n, f.matcher, f.out, t, false);
      t' := t;
      forall k | k in f.matcher.unmatched && k != KeyOf(e) ensures Stands(events, t.held[k], n + 1, k) {
        StandsOn(events, t.held[k], n, k);
      }
  }

  lemma {:induction false} EmitKeepsMatcher(f: Feed, rows: seq<Entry>)
    ensures EmitRows(f, rows).matcher == f.matcher
    decreases |rows|
  {
    if rows != [] && rows[0].known {
      EmitKeepsMatcher(f.(out := f.out + [Row(rows[0])]), rows[1..]);
    }
  }

  lemma StartTraced(events: seq<Event>, n: nat, f: Feed, t: Trace) returns (t': Trace)
    requires n < |events| && Traced(events, n, f.matcher, f.out, t, true) && !events[n].Reconnect?
    requires forall k :: !Supersedes(events[n], k)
    ensures var (u, rows) := MatchAll(f.matcher.unmatched, f.matcher.cached);
            var g := EmitRows(f.(initialized := true, matcher := Matcher(u, [])), rows);
            Traced(events, n + 1, g.matcher, g.out, t', true)
  {
    Later(events, n, f.matcher, f.out, t, true);
    var (u, rows) := MatchAll(f.matcher.unmatched, f.matcher.cached);
    var g := f.(initialized := true, matcher := Matcher(u, []));
    t' := InitTraced(events, n + 1, g, f.matcher.unmatched, f.matcher.cached, t);
    EmitKeepsMatcher(g, rows);
  }

  lemma StepTraced(events: seq<Event>, n: nat, f: Feed, t: Trace) returns (t': Trace)
    requires n < |events| && Traced(events, n, f.matcher, f.out, t, !f.failed)
    ensures var g := Step(f, events[n]); Traced(events, n + 1, g.matcher, g.out, t', !g.failed)
  {
    var e := events[n];
    t' := t;
    if e.Reconnect? {
      OriginsLater(events, n, f.out, t.origins);
      NotMatched(events, n + 1, f.out, t.origins, Resolved(HandedBack(f)));
      t' := t.(places := []);
    } else if f.failed {
      Later(events, n, f.matcher, f.out, t, false);
    } else if e.Got? && e.inSpan {
      t' := EntryTraced(events, n, f, t, e.entry);
    } else if e.Got? && e.entry.kind.Initialized? {
      t' := StartTraced(events, n, f, t);
    } else {
      Later(events, n, f.matcher, f.out, t, true);
      if e.GotResolved? {
        NotMatched(events, n + 1, f.out, t.origins, Resolved(e.ts));
      }
    }
  }

  lemma {:induction false} RunTraced(ts: nat, events: seq<Event>, n: nat) returns (t: Trace)
    requires n <= |events|
    ensures var f := After(Start(ts), events, n); Traced(events, n, f.matcher, f.out, t, !f.failed)
  {
    if n == 0 {
      t := Trace(map[], [], map[]);
    } else {
      var before := RunTraced(ts, events, n - 1);
      t := StepTraced(events, n - 1, After(Start(ts), events, n - 1), before);
    }
  }

  /** In every run, before and after initialization and over all subscriptions, every matched row is
      a commit with the values of a prewrite for the same key and start, both received in one
      subscription, which was not taken back or replaced before the commit came, and no two rows are
      made of the same prewrite or the same commit. */
  lemma EveryRowHasItsOwnPrewrite(ts: nat, events: seq<Event>) returns (origins: map<nat, Origin>)
    ensures OriginsOk(events, |events|, After(Start(ts), events, |events|).out, origins)
  {
    var t := RunTraced(ts, events, |events|);
    origins := t.origins;
  }

  // ----- Everything that should come out does -----

  predicate Is(e: Event, k: MatchKey, kind: Kind) {
    e.Got? && e.inSpan && IsFor(e.entry, k) && e.entry.kind == kind
  }

  /** From `from` to `n` there is no reconnection and no commit for the key. */
  ghost predicate Quiet(events: seq<Event>, from: nat, n: nat, k: MatchKey)
    requires n <= |events|
  {
    forall j {:trigger events[j]} :: from <= j < n ==> !events[j].Reconnect? && !Is(events[j], k, Commit)
  }

  /** A subscription begins. */
  predicate Begins(events: seq<Event>, start: nat)
    requires start <= |events|
  {
    start == 0 || events[start - 1].Reconnect?
  }

  /** No commit for the key waits. */
  ghost predicate NothingYet(f: Feed, k: MatchKey) {
    forall i :: 0 <= i < |f.matcher.cached| ==> KeyOf(f.matcher.cached[i]) != k
  }

  lemma {:induction false} MatchAllOthers(u: map<MatchKey, Entry>, cached: seq<Entry>, k: MatchKey)
    requires forall i :: 0 <= i < |cached| ==> KeyOf(cached[i]) != k
    ensures var u' := MatchAll(u, cached).0; (k in u' <==> k in u) && (k in u ==> u'[k] == u[k])
    decreases |cached|
  {
    if cached != [] {
      assert KeyOf(cached[0]) != k;
      MatchAllOthers(if KeyOf(cached[0]) in u then u - {KeyOf(cached[0])} else u, cached[1..], k);
    }
  }

  /** What a quiet event does to the key. */
  lemma QuietStep(f: Feed, e: Event, k: MatchKey)
    requires NothingYet(f, k) && !e.Reconnect? && !Is(e, k, Commit)
    ensures var g := Step(f, e); var (u, u') := (f.matcher.unmatched, g.matcher.unmatched);
            && NothingYet(g, k) && (f.failed ==> g.failed)
            && (k in u' && k !in u ==> Is(e, k, Prewrite))
            && (k in u && !Supersedes(e, k) ==> k in u' && u'[k] == u[k])
            && (!f.failed && Is(e, k, Prewrite) && (k !in u || e.entry.value != "") ==> k in u' && u'[k] == e.entry)
  {
    if !f.failed && e.Got? {
      if e.entry.kind.Initialized? {
        var (u, rows) := MatchAll(f.matcher.unmatched, f.matcher.cached);
        MatchAllOthers(f.matcher.unmatched, f.matcher.cached, k);
        EmitKeepsMatcher(f.(initialized := true, matcher := Matcher(u, [])), rows);
      } else if e.inSpan && e.entry.kind.Commit? {
        QuietCommit(f, e.entry, k);
      }
    }
  }

  lemma QuietCommit(f: Feed, e: Entry, k: MatchKey)
    requires NothingYet(f, k) && e.kind.Commit? && KeyOf(e) != k
    ensures var g := HandleCommit(f, e); var (u, u') := (f.matcher.unmatched, g.matcher.unmatched);
            NothingYet(g, k) && (k in u' <==> k in u) && (k in u ==> u'[k] == u[k])
  {
    if e.commitTs > f.lastResolvedTs && KeyOf(e) in f.matcher.unmatched {
      CommitEmits(f, e);
    }
  }

  ghost predicate NoPrewrite(events: seq<Event>, start: nat, n: nat, k: MatchKey)
    requires start <= n <= |events|
  {
    forall j {:trigger events[j]} :: start <= j < n ==> !Is(events[j], k, Prewrite)
  }

  /** Before there is a prewrite for the key, none waits. */
  lemma {:induction false} BeforePrewrite(ts: nat, events: seq<Event>, start: nat, n: nat, k: MatchKey)
    requires start <= n <= |events| && Begins(events, start) && Quiet(events, start, n, k)
    ensures var f := After(Start(ts), events, n);
            && NothingYet(f, k)
            && (NoPrewrite(events, start, n, k) ==> k !in f.matcher.unmatched)
  {
    if n > start {
      BeforePrewrite(ts, events, start, n - 1, k);
      QuietStep(After(Start(ts), events, n - 1), events[n - 1], k);
    }
  }

  /** A feed that has failed stays so until the next subscription. */
  lemma {:induction false} FailureStays(ts: nat, events: seq<Event>, i: nat, n: nat)
    requires i <= n <= |events| && forall j :: i <= j < n ==> !events[j].Reconnect?
    ensures After(Start(ts), events, i).failed ==> After(Start(ts), events, n).failed
  {
    if n > i {
      FailureStays(ts, events, i, n - 1);
    }
  }

  /** From the prewrite on, it waits. */
  lemma {:induction false} AfterPrewrite(ts: nat, events: seq<Event>, start: nat, i: nat, n: nat, k: MatchKey)
    requires start <= i < n <= |events| && Begins(events, start) && Quiet(events, start, n, k)
    requires Is(events[i], k, Prewrite) && Stands(events, i, n, k) && !After(Start(ts), events, i).failed
    requires events[i].entry.value != "" || NoPrewrite(events, start, i, k)
    ensures var f := After(Start(ts), events, n);
            NothingYet(f, k) && k in f.matcher.unmatched && f.matcher.unmatched[k] == events[i].entry
  {
    if n == i + 1 {
      BeforePrewrite(ts, events, start, i, k);
    } else {
      AfterPrewrite(ts, events, start, i, n - 1, k);
    }
    QuietStep(After(Start(ts), events, n - 1), events[n - 1], k);
  }

  /** In every run: a commit that comes after its prewrite, with no other commit for the key in the
      subscription, is put out at once with the values of that prewrite, whatever else came in
      between. */
  lemma CommitIsEmitted(ts: nat, events: seq<Event>, start: nat, i: nat, j: nat, k: MatchKey)
    requires start <= i < j < |events| && Begins(events, start) && Quiet(events, start, j, k)
    requires Is(events[i], k, Prewrite) && Stands(events, i, j, k) && Is(events[j], k, Commit)
    requires events[i].entry.value != "" || NoPrewrite(events, start, i, k)
    requires var f := After(Start(ts), events, j);
             !f.failed && events[j].entry.known && events[j].entry.commitTs > f.lastResolvedTs
    ensures var (f, g) := (After(Start(ts), events, j), After(Start(ts), events, j + 1));
            && !g.failed && |g.out| == |f.out| + 1 && f.out <= g.out
            && g.out[|f.out|].Row? && Combines(g.out[|f.out|].entry, events[j].entry, events[i].entry)
  {
    FailureStays(ts, events, i, j);
    AfterPrewrite(ts, events, start, i, j, k);
    CommitEmits(After(Start(ts), events, j), events[j].entry);
    CommitGoesWell(After(Start(ts), events, j), events[j].entry);
  }

  lemma CommitGoesWell(f: Feed, e: Entry)
    requires !f.failed && e.known && e.commitTs > f.lastResolvedTs && KeyOf(e) in f.matcher.unmatched
    ensures !HandleCommit(f, e).failed
  {
    var row := Filled(e, f.matcher.unmatched[KeyOf(e)]);
    var g := f.(matcher := f.matcher.(unmatched := f.matcher.unmatched - {KeyOf(e)}));
    assert [row][1..] == [] && EmitRows(g, [row]) == EmitRows(g.(out := g.out + [Row(row)]), []);
  }

  /** A row that needs no prewrite, and a resolved timestamp that does not fall back, are put out as
      they are; rows at or below what is resolved, and rows that cannot be built, are not: the feed
      fails. */
  lemma OthersAreEmitted(f: Feed)
    requires !f.failed
    ensures forall e: Entry :: e.kind.Committed? ==>
              var g := Step(f, Got(e, true));
              if e.known && e.commitTs > f.lastResolvedTs then !g.failed && g.out == f.out + [Row(e)]
              else g.failed && g.out == f.out
    ensures forall ts: nat ::
              var g := Step(f, GotResolved(ts));
              && !g.failed
              && if f.initialized && ts >= f.lastResolvedTs
                 then g.out == f.out + [Resolved(ts)] && g.lastResolvedTs == ts
                 else g.out == f.out && g.lastResolvedTs == f.lastResolvedTs
    ensures forall e: Entry :: e.kind.Commit? && KeyOf(e) !in f.matcher.unmatched ==>
              var g := Step(f, Got(e, true));
              g.out == f.out && (g.failed <==> f.initialized || e.commitTs <= f.lastResolvedTs)
  {
  }
}
