/** Matching of prewrites and commits, and the feed of one region, as values. */
module RegionFeedSpec {
  datatype MatchKey = MatchKey(startTs: nat, key: string)

  datatype Kind = Initialized | Committed | Prewrite | Commit | Rollback

  // `known`: the operation type is one that can be turned into a row.
  datatype Entry = Entry(kind: Kind, startTs: nat, commitTs: nat, key: string, value: string, oldValue: string,
                         known: bool)

  function KeyOf(e: Entry): MatchKey {
    MatchKey(e.startTs, e.key)
  }

  // ----- Matching -----

  datatype Matcher = Matcher(unmatched: map<MatchKey, Entry>, cached: seq<Entry>)

  const EMPTY: Matcher := Matcher(map[], [])

  /** A prewrite without a value does not replace one that is there: it may be a heartbeat. */
  function Put(m: Matcher, e: Entry): Matcher {
    if KeyOf(e) in m.unmatched && e.value == "" then m else m.(unmatched := m.unmatched[KeyOf(e) := e])
  }

  /** The commit with the values of its prewrite. */
  function Filled(commit: Entry, prewrite: Entry): Entry {
    commit.(value := prewrite.value, oldValue := prewrite.oldValue)
  }

  /** Matches the commits in order; those without a prewrite are dropped. */
  function MatchAll(unmatched: map<MatchKey, Entry>, cached: seq<Entry>): (map<MatchKey, Entry>, seq<Entry>)
    decreases |cached|
  {
    if cached == [] then (unmatched, [])
    else
      var c := cached[0];
      if KeyOf(c) in unmatched then
        var (u, rows) := MatchAll(unmatched - {KeyOf(c)}, cached[1..]);
        (u, [Filled(c, unmatched[KeyOf(c)])] + rows)
      else MatchAll(unmatched, cached[1..])
  }

  // ----- The scan before initialization -----

  datatype Scan = Scan(matcher: Matcher, rows: seq<Entry>)

  function ScanStep(s: Scan, e: Entry): Scan {
    match e.kind
    case Prewrite => s.(matcher := Put(s.matcher, e))
    case Rollback => s.(matcher := s.matcher.(unmatched := s.matcher.unmatched - {KeyOf(e)}))
    case Commit =>
      if KeyOf(e) in s.matcher.unmatched then
        Scan(s.matcher.(unmatched := s.matcher.unmatched - {KeyOf(e)}),
             s.rows + [Filled(e, s.matcher.unmatched[KeyOf(e)])])
      else s.(matcher := s.matcher.(cached := s.matcher.cached + [e]))
    case Committed => s.(rows := s.rows + [e])
    case Initialized => s
  }

  /** What the first `n` entries lead to. */
  function ScanTo(entries: seq<Entry>, n: nat): Scan
    requires n <= |entries|
  {
    if n == 0 then Scan(EMPTY, []) else ScanStep(ScanTo(entries, n - 1), entries[n - 1])
  }

  /** The rows emitted on the way, then those matched at initialization. */
  function AllRows(s: Scan): seq<Entry> {
    s.rows + MatchAll(s.matcher.unmatched, s.matcher.cached).1
  }

  /** The rows emitted by a whole scan. */
  function Emitted(entries: seq<Entry>): seq<Entry> {
    AllRows(ScanTo(entries, |entries|))
  }

  function Of(rows: seq<Entry>, k: MatchKey): seq<Entry> {
    if rows == [] then [] else (if KeyOf(rows[0]) == k then [rows[0]] else []) + Of(rows[1..], k)
  }

  lemma {:induction false} OfConcat(a: seq<Entry>, b: seq<Entry>, k: MatchKey)
    ensures Of(a + b, k) == Of(a, k) + Of(b, k)
  {
    if a == [] {
      assert a + b == b;
    } else {
      assert (a + b)[1..] == a[1..] + b;
      OfConcat(a[1..], b, k);
    }
  }

  lemma OfSnoc(a: seq<Entry>, e: Entry, k: MatchKey)
    ensures Of(a + [e], k) == Of(a, k) + (if KeyOf(e) == k then [e] else [])
  {
    OfConcat(a, [e], k);
    assert Of([e][1..], k) == [];
  }

  predicate IsFor(e: Entry, k: MatchKey) {
    e.startTs == k.startTs && e.key == k.key && !e.kind.Initialized?
  }

  /** There is one commit for the key, and otherwise only prewrites. That at `i` counts for the commit: of
      those that come before the commit, or of all if none does, it is the last that has a value,
      or else the first. */
  ghost predicate Clean(entries: seq<Entry>, k: MatchKey, i: nat, j: nat) {
    && i < |entries| && entries[i].kind.Prewrite? && IsFor(entries[i], k)
    && j < |entries| && entries[j].kind.Commit? && IsFor(entries[j], k)
    && (forall n {:trigger entries[n]} :: 0 <= n < |entries| && n != j && IsFor(entries[n], k) ==>
          && entries[n].kind.Prewrite? && (n < j ==> i < j)
          && (n < i ==> entries[i].value != "")
          && (n > i && (n < j || j < i) ==> entries[n].value == ""))
  }

  datatype Option<+T> = None | Some(value: T)

  /** What a scan holds and has emitted for one key. */
  datatype View = View(prewrite: Option<Entry>, cached: seq<Entry>, rows: seq<Entry>)

  function ViewOf(s: Scan, k: MatchKey): View {
    View(if k in s.matcher.unmatched then Some(s.matcher.unmatched[k]) else None,
         Of(s.matcher.cached, k), Of(s.rows, k))
  }

  function ViewStep(v: View, e: Entry): View {
    match e.kind
    case Prewrite => if v.prewrite.Some? && e.value == "" then v else v.(prewrite := Some(e))
    case Rollback => v.(prewrite := None)
    case Commit =>
      if v.prewrite.Some? then v.(prewrite := None, rows := v.rows + [Filled(e, v.prewrite.value)])
      else v.(cached := v.cached + [e])
    case Committed => v.(rows := v.rows + [e])
    case Initialized => v
  }

  /** A key only depends on its own entries. */
  lemma KeysAreApart(s: Scan, e: Entry, k: MatchKey)
    ensures ViewOf(ScanStep(s, e), k) == if KeyOf(e) == k then ViewStep(ViewOf(s, k), e) else ViewOf(s, k)
  {
    match e.kind
    case Prewrite =>
    case Rollback =>
    case Initialized =>
    case Committed => OfSnoc(s.rows, e, k);
    case Commit =>
      if KeyOf(e) in s.matcher.unmatched {
        OfSnoc(s.rows, Filled(e, s.matcher.unmatched[KeyOf(e)]), k);
      } else {
        OfSnoc(s.matcher.cached, e, k);
      }
  }

  /** How far the key has come after `n` entries. */
  ghost predicate Progress(v: View, entries: seq<Entry>, i: nat, j: nat, n: nat)
    requires i < |entries| && j < |entries|
  {
    if n <= i && n <= j then v.cached == [] && v.rows == [] && (v.prewrite.Some? ==> i < j && entries[i].value != "")
    else if n <= j then v == View(Some(entries[i]), [], [])
    else if n <= i then v.cached == [entries[j]] && v.rows == [] && (v.prewrite.Some? ==> entries[i].value != "")
    else if i < j then v.cached == [] && v.rows == [Filled(entries[j], entries[i])]
    else v == View(Some(entries[i]), [entries[j]], [])
  }

  lemma {:induction false} ScanProgress(entries: seq<Entry>, k: MatchKey, i: nat, j: nat, n: nat)
    requires Clean(entries, k, i, j) && n <= |entries|
    ensures Progress(ViewOf(ScanTo(entries, n), k), entries, i, j, n)
  {
    if n > 0 {
      ScanProgress(entries, k, i, j, n - 1);
      KeysAreApart(ScanTo(entries, n - 1), entries[n - 1], k);
    }
  }

  lemma {:induction false} MatchAllFor(u: map<MatchKey, Entry>, cached: seq<Entry>, k: MatchKey)
    requires |Of(cached, k)| <= 1
    ensures Of(MatchAll(u, cached).1, k)
            == if k in u && Of(cached, k) != [] then [Filled(Of(cached, k)[0], u[k])] else []
    decreases |cached|
  {
    if cached != [] {
      var c, rest := cached[0], cached[1..];
      if KeyOf(c) in u {
        MatchAllFor(u - {KeyOf(c)}, rest, k);
        var row := Filled(c, u[KeyOf(c)]);
        var rows := MatchAll(u - {KeyOf(c)}, rest).1;
        assert ([row] + rows)[1..] == rows;
      } else {
        MatchAllFor(u, rest, k);
      }
    }
  }

  /** The row is the commit with the values of the prewrite. */
  predicate Combines(row: Entry, commit: Entry, prewrite: Entry) {
    && row.kind == commit.kind && row.startTs == commit.startTs && row.commitTs == commit.commitTs
    && row.key == commit.key && row.known == commit.known
    && row.value == prewrite.value && row.oldValue == prewrite.oldValue
  }

  /** A commit is emitted exactly once, with the values of its prewrite, whether the prewrite was
      seen before it or, during the scan, only after it. */
  lemma OrderDoesNotMatter(entries: seq<Entry>, k: MatchKey, i: nat, j: nat)
    requires Clean(entries, k, i, j)
    ensures var rows := Of(Emitted(entries), k); |rows| == 1 && Combines(rows[0], entries[j], entries[i])
  {
    ScanProgress(entries, k, i, j, |entries|);
    var s := ScanTo(entries, |entries|);
    MatchAllFor(s.matcher.unmatched, s.matcher.cached, k);
    OfConcat(s.rows, MatchAll(s.matcher.unmatched, s.matcher.cached).1, k);
  }

  /** The row is the commit, but for the values. */
  predicate CameFrom(row: Entry, commit: Entry) {
    row == commit.(value := row.value, oldValue := row.oldValue)
  }

  /** The places in `cached` that the rows came from, in order. */
  ghost predicate FromPlaces(rows: seq<Entry>, cached: seq<Entry>, places: seq<nat>) {
    && |places| == |rows|
    && (forall a, b :: 0 <= a < b < |places| ==> places[a] < places[b])
    && (forall a :: 0 <= a < |places| ==> places[a] < |cached| && CameFrom(rows[a], cached[places[a]]))
  }

  function Shift(places: seq<nat>): (r: seq<nat>)
    ensures |r| == |places| && forall a :: 0 <= a < |r| ==> r[a] == places[a] + 1
  {
    if places == [] then [] else [places[0] + 1] + Shift(places[1..])
  }

  lemma ShiftPlaces(rows: seq<Entry>, cached: seq<Entry>, places: seq<nat>)
    requires cached != [] && FromPlaces(rows, cached[1..], places)
    ensures FromPlaces(rows, cached, Shift(places))
  {
  }

  lemma FirstPlace(row: Entry, rows: seq<Entry>, cached: seq<Entry>, places: seq<nat>)
    requires cached != [] && CameFrom(row, cached[0]) && FromPlaces(rows, cached[1..], places)
    ensures FromPlaces([row] + rows, cached, [0] + Shift(places))
  {
    var all, moved := [row] + rows, [0] + Shift(places);
    forall a, b | 0 <= a < b < |moved|
      ensures moved[a] < moved[b]
    {
      if a > 0 {
        assert places[a - 1] < places[b - 1];
      }
    }
    forall a | 0 <= a < |moved|
      ensures moved[a] < |cached| && CameFrom(all[a], cached[moved[a]])
    {
      if a > 0 {
        assert CameFrom(rows[a - 1], cached[1..][places[a - 1]]);
      }
    }
  }

  /** The rows matched at initialization come in the order their commits were cached. */
  lemma {:induction false} MatchAllKeepsOrder(u: map<MatchKey, Entry>, cached: seq<Entry>) returns (places: seq<nat>)
    ensures FromPlaces(MatchAll(u, cached).1, cached, places)
    decreases |cached|
  {
    if cached == [] {
      places := [];
    } else {
      var c, rest := cached[0], cached[1..];
      if KeyOf(c) in u {
        var later := MatchAllKeepsOrder(u - {KeyOf(c)}, rest);
        FirstPlace(Filled(c, u[KeyOf(c)]), MatchAll(u - {KeyOf(c)}, rest).1, cached, later);
        places := [0] + Shift(later);
      } else {
        var later := MatchAllKeepsOrder(u, rest);
        ShiftPlaces(MatchAll(u, rest).1, cached, later);
        places := Shift(later);
      }
    }
  }

  // ----- The feed of one region -----

  datatype Out = Row(entry: Entry) | Resolved(ts: nat)

  /** `ts` is where a new subscription would start from. */
  datatype Feed = Feed(ts: nat, initialized: bool, matcher: Matcher, lastResolvedTs: nat, out: seq<Out>, failed: bool)

  /** A subscription: its start is reported as resolved before anything else. */
  function Subscribe(ts: nat, out: seq<Out>): Feed {
    Feed(ts, false, EMPTY, ts, out + [Resolved(ts)], false)
  }

  function Start(ts: nat): Feed {
    Subscribe(ts, [])
  }

  // `Reconnect` is the next subscription to the region, after a failure or when its stream is lost.
  datatype Event = Got(entry: Entry, inSpan: bool) | GotResolved(ts: nat) | Reconnect

  /** Emits rows up to the first whose operation is not known. */
  function EmitRows(f: Feed, rows: seq<Entry>): Feed
    decreases |rows|
  {
    if rows == [] then f
    else if !rows[0].known then f.(failed := true)
    else EmitRows(f.(out := f.out + [Row(rows[0])]), rows[1..])
  }

  function HandleCommit(f: Feed, e: Entry): Feed {
    if e.commitTs <= f.lastResolvedTs then f.(failed := true)
    else if KeyOf(e) in f.matcher.unmatched then
      EmitRows(f.(matcher := f.matcher.(unmatched := f.matcher.unmatched - {KeyOf(e)})),
               [Filled(e, f.matcher.unmatched[KeyOf(e)])])
    else if !f.initialized then f.(matcher := f.matcher.(cached := f.matcher.cached + [e]))
    else f.(failed := true)
  }

  function HandleEntry(f: Feed, e: Entry, inSpan: bool): Feed {
    if !inSpan && !e.kind.Initialized? then f
    else match e.kind
      case Initialized =>
        var (u, rows) := MatchAll(f.matcher.unmatched, f.matcher.cached);
        EmitRows(f.(initialized := true, matcher := Matcher(u, [])), rows)
      case Committed =>
        if !e.known || e.commitTs <= f.lastResolvedTs then f.(failed := true) else f.(out := f.out + [Row(e)])
      case Prewrite => f.(matcher := Put(f.matcher, e))
      case Commit => HandleCommit(f, e)
      case Rollback => f.(matcher := f.matcher.(unmatched := f.matcher.unmatched - {KeyOf(e)}))
  }

  /** Ignored before initialization and if it falls back. */
  function HandleResolved(f: Feed, ts: nat): Feed {
    if !f.initialized || ts < f.lastResolvedTs then f
    else f.(lastResolvedTs := ts, out := f.out + [Resolved(ts)])
  }

  /** Where the region is taken up again after a failure. */
  function HandedBack(f: Feed): nat {
    if f.lastResolvedTs > f.ts then f.lastResolvedTs else f.ts
  }

  function Step(f: Feed, e: Event): Feed {
    if e.Reconnect? then Subscribe(HandedBack(f), f.out)
    else if f.failed then f
    else match e
      case Got(entry, inSpan) => HandleEntry(f, entry, inSpan)
      case GotResolved(ts) => HandleResolved(f, ts)
  }

  function After(f: Feed, events: seq<Event>, n: nat): Feed
    requires n <= |events|
  {
    if n == 0 then f else Step(After(f, events, n - 1), events[n - 1])
  }

  /** Resolved timestamps do not fall, and every row commits after all that were resolved before it. */
  ghost predicate Ordered(out: seq<Out>) {
    && (forall i, j :: 0 <= i < j < |out| && out[i].Resolved? && out[j].Resolved? ==> out[i].ts <= out[j].ts)
    && (forall i, j :: 0 <= i < j < |out| && out[i].Resolved? && out[j].Row? ==> out[i].ts < out[j].entry.commitTs)
  }

  ghost predicate UpTo(out: seq<Out>, ts: nat) {
    forall i :: 0 <= i < |out| && out[i].Resolved? ==> out[i].ts <= ts
  }

  ghost predicate AllAfter(rows: seq<Entry>, ts: nat) {
    forall i :: 0 <= i < |rows| ==> rows[i].commitTs > ts
  }

  ghost predicate Inv(f: Feed) {
    && Ordered(f.out) && UpTo(f.out, f.lastResolvedTs)
    && f.ts <= f.lastResolvedTs && Resolved(f.lastResolvedTs) in f.out
    && AllAfter(f.matcher.cached, f.lastResolvedTs)
    && (f.initialized ==> f.matcher.cached == [])
  }

  lemma {:induction false} EmitRowsOk(f: Feed, rows: seq<Entry>)
    requires Inv(f) && AllAfter(rows, f.lastResolvedTs)
    ensures Inv(EmitRows(f, rows))
    decreases |rows|
  {
    if rows != [] && rows[0].known {
      EmitRowsOk(f.(out := f.out + [Row(rows[0])]), rows[1..]);
    }
  }

  lemma {:induction false} MatchedAfter(u: map<MatchKey, Entry>, cached: seq<Entry>, ts: nat)
    requires AllAfter(cached, ts)
    ensures AllAfter(MatchAll(u, cached).1, ts)
    decreases |cached|
  {
    if cached != [] {
      MatchedAfter(if KeyOf(cached[0]) in u then u - {KeyOf(cached[0])} else u, cached[1..], ts);
    }
  }

  lemma InitializationOk(f: Feed, e: Entry, inSpan: bool)
    requires Inv(f) && e.kind.Initialized?
    ensures Inv(HandleEntry(f, e, inSpan))
  {
    var (u, rows) := MatchAll(f.matcher.unmatched, f.matcher.cached);
    MatchedAfter(f.matcher.unmatched, f.matcher.cached, f.lastResolvedTs);
    EmitRowsOk(f.(initialized := true, matcher := Matcher(u, [])), rows);
  }

  lemma CommitOk(f: Feed, e: Entry)
    requires Inv(f)
    ensures Inv(HandleCommit(f, e))
  {
    if e.commitTs > f.lastResolvedTs && KeyOf(e) in f.matcher.unmatched {
      EmitRowsOk(f.(matcher := f.matcher.(unmatched := f.matcher.unmatched - {KeyOf(e)})),
                 [Filled(e, f.matcher.unmatched[KeyOf(e)])]);
    }
  }

  lemma ResolvedOk(f: Feed, ts: nat)
    requires Inv(f) && ts >= f.lastResolvedTs && (f.initialized ==> f.matcher.cached == [])
    requires AllAfter(f.matcher.cached, ts)
    ensures Inv(f.(lastResolvedTs := ts, out := f.out + [Resolved(ts)]))
  {
    assert Resolved(ts) in f.out + [Resolved(ts)];
  }

  lemma EntryOk(f: Feed, e: Entry, inSpan: bool)
    requires Inv(f)
    ensures Inv(HandleEntry(f, e, inSpan))
  {
    if e.kind.Initialized? {
      InitializationOk(f, e, inSpan);
    } else if e.kind.Commit? {
      CommitOk(f, e);
    } else if e.kind.Committed? && e.known && e.commitTs > f.lastResolvedTs {
      EmitRowsOk(f, [e]);
      assert [e][1..] == [] && EmitRows(f, [e]) == EmitRows(f.(out := f.out + [Row(e)]), []);
    }
  }

  lemma StepOk(f: Feed, e: Event)
    requires Inv(f)
    ensures Inv(Step(f, e))
  {
    match e
    case Got(entry, inSpan) => EntryOk(f, entry, inSpan);
    case GotResolved(ts) =>
      if f.initialized && ts >= f.lastResolvedTs {
        ResolvedOk(f, ts);
      }
    case Reconnect => ResolvedOk(f.(matcher := EMPTY), HandedBack(f));
  }

  lemma {:induction false} RunKeepsInv(ts: nat, events: seq<Event>, n: nat)
    requires n <= |events|
    ensures Inv(After(Start(ts), events, n))
  {
    if n > 0 {
      RunKeepsInv(ts, events, n - 1);
      StepOk(After(Start(ts), events, n - 1), events[n - 1]);
    }
  }

  /** Along every run, over all its subscriptions, the output is ordered, cached commits included,
      and where the region is taken up again is the last timestamp reported as resolved. */
  lemma EveryRunIsOrdered(ts: nat, events: seq<Event>)
    ensures var f := After(Start(ts), events, |events|);
            Ordered(f.out) && UpTo(f.out, HandedBack(f)) && Resolved(HandedBack(f)) in f.out
  {
    RunKeepsInv(ts, events, |events|);
  }

  // ----- The scan as part of the feed -----

  function Rows(entries: seq<Entry>): seq<Out> {
    if entries == [] then [] else [Row(entries[0])] + Rows(entries[1..])
  }

  lemma {:induction false} RowsConcat(a: seq<Entry>, b: seq<Entry>)
    ensures Rows(a + b) == Rows(a) + Rows(b)
  {
    if a == [] {
      assert a + b == b;
    } else {
      assert (a + b)[1..] == a[1..] + b;
      RowsConcat(a[1..], b);
    }
  }

  lemma {:induction false} EmitKnown(f: Feed, rows: seq<Entry>)
    requires forall i :: 0 <= i < |rows| ==> rows[i].known
    ensures EmitRows(f, rows) == f.(out := f.out + Rows(rows))
    decreases |rows|
  {
    if rows != [] {
      EmitKnown(f.(out := f.out + [Row(rows[0])]), rows[1..]);
      assert f.out + [Row(rows[0])] + Rows(rows[1..]) == f.out + Rows(rows);
    }
  }

  /** An entry of a scan that nothing is wrong with. */
  predicate SoundEntry(e: Entry, ts: nat) {
    && e.known && !e.kind.Initialized?
    && (e.kind.Commit? || e.kind.Committed? ==> e.commitTs > ts)
  }

  ghost predicate Sound(entries: seq<Entry>, ts: nat) {
    forall i {:trigger entries[i]} :: 0 <= i < |entries| ==> SoundEntry(entries[i], ts)
  }

  function Events(entries: seq<Entry>): (events: seq<Event>)
    ensures |events| == |entries| && forall i :: 0 <= i < |entries| ==> events[i] == Got(entries[i], true)
  {
    if entries == [] then [] else [Got(entries[0], true)] + Events(entries[1..])
  }

  ghost predicate AllKnown(rows: seq<Entry>) {
    forall i :: 0 <= i < |rows| ==> rows[i].known
  }

  /** The feed that has taken in what the scan has. */
  function FeedOf(ts: nat, s: Scan): Feed {
    Feed(ts, false, s.matcher, ts, [Resolved(ts)] + Rows(s.rows), false)
  }

  lemma FeedEmitsRow(ts: nat, s: Scan, row: Entry)
    ensures [Resolved(ts)] + Rows(s.rows) + [Row(row)] == [Resolved(ts)] + Rows(s.rows + [row])
  {
    RowsConcat(s.rows, [row]);
    assert [row][1..] == [];
    assert Rows([row]) == [Row(row)];
    assert [Resolved(ts)] + Rows(s.rows) + [Row(row)] == [Resolved(ts)] + (Rows(s.rows) + [Row(row)]);
  }

  lemma FeedStepsWithScan(ts: nat, s: Scan, e: Entry)
    requires SoundEntry(e, ts)
    ensures Step(FeedOf(ts, s), Got(e, true)) == FeedOf(ts, ScanStep(s, e))
  {
    if e.kind.Committed? {
      FeedEmitsRow(ts, s, e);
    } else if e.kind.Commit? && KeyOf(e) in s.matcher.unmatched {
      var row := Filled(e, s.matcher.unmatched[KeyOf(e)]);
      FeedEmitsRow(ts, s, row);
      var f := FeedOf(ts, s).(matcher := s.matcher.(unmatched := s.matcher.unmatched - {KeyOf(e)}));
      assert [row][1..] == [];
      assert EmitRows(f, [row]) == f.(out := f.out + [Row(row)]);
    }
  }

  /** Before initialization the feed holds what the scan holds and has emitted its rows. */
  lemma {:induction false} FeedFollowsScan(ts: nat, entries: seq<Entry>, n: nat)
    requires Sound(entries, ts) && n <= |entries|
    ensures After(Start(ts), Events(entries), n) == FeedOf(ts, ScanTo(entries, n))
    ensures AllKnown(ScanTo(entries, n).matcher.cached)
  {
    if n > 0 {
      FeedFollowsScan(ts, entries, n - 1);
      assert SoundEntry(entries[n - 1], ts);
      FeedStepsWithScan(ts, ScanTo(entries, n - 1), entries[n - 1]);
    }
  }

  lemma {:induction false} MatchAllKnown(u: map<MatchKey, Entry>, cached: seq<Entry>)
    requires AllKnown(cached)
    ensures AllKnown(MatchAll(u, cached).1)
    decreases |cached|
  {
    if cached != [] {
      MatchAllKnown(if KeyOf(cached[0]) in u then u - {KeyOf(cached[0])} else u, cached[1..]);
    }
  }

  lemma InitializationEmits(f: Feed, init: Entry)
    requires !f.failed && AllKnown(f.matcher.cached) && init.kind.Initialized?
    ensures Step(f, Got(init, true)).out == f.out + Rows(MatchAll(f.matcher.unmatched, f.matcher.cached).1)
  {
    var (u, rows) := MatchAll(f.matcher.unmatched, f.matcher.cached);
    MatchAllKnown(f.matcher.unmatched, f.matcher.cached);
    EmitKnown(f.(initialized := true, matcher := Matcher(u, [])), rows);
  }

  lemma FeedCompletes(ts: nat, s: Scan, init: Entry)
    requires AllKnown(s.matcher.cached) && init.kind.Initialized?
    ensures Step(FeedOf(ts, s), Got(init, true)).out == [Resolved(ts)] + Rows(AllRows(s))
  {
    var late := MatchAll(s.matcher.unmatched, s.matcher.cached).1;
    InitializationEmits(FeedOf(ts, s), init);
    RowsConcat(s.rows, late);
    assert [Resolved(ts)] + Rows(s.rows) + Rows(late) == [Resolved(ts)] + (Rows(s.rows) + Rows(late));
  }

  /** So what the feed has emitted once it is initialized is what the scan emits. */
  lemma FeedEmitsScan(ts: nat, entries: seq<Entry>, init: Entry)
    requires Sound(entries, ts) && init.kind.Initialized?
    ensures Step(After(Start(ts), Events(entries), |entries|), Got(init, true)).out
            == [Resolved(ts)] + Rows(Emitted(entries))
  {
    FeedFollowsScan(ts, entries, |entries|);
    FeedCompletes(ts, ScanTo(entries, |entries|), init);
  }
}
