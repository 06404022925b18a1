/** The matcher and the state of one region's feed as the objects whose fields are updated,
    with the cached commits compacted in place. */
module RegionFeed {
  import opened RegionFeedSpec

  /** A copy of the array with room for more. */
  method Larger(a: array<Entry>, filler: Entry) returns (b: array<Entry>)
    ensures fresh(b) && b.Length > a.Length && b[..a.Length] == a[..]
  {
    b := new Entry[2 * a.Length + 1](_ => filler);
    var i := 0;
    while i < a.Length
      invariant 0 <= i <= a.Length && b[..i] == a[..i]
    {
      b[i] := a[i];
      i := i + 1;
    }
  }

  class MatcherState {
    var unmatchedValue: map<MatchKey, Entry>
    var cachedCommit: array<Entry>
    var cachedLen: nat

    ghost predicate Valid()
      reads this
    {
      cachedLen <= cachedCommit.Length
    }

    ghost function Abs(): Matcher
      requires Valid()
      reads this, cachedCommit
    {
      Matcher(unmatchedValue, cachedCommit[..cachedLen])
    }

    constructor ()
      ensures Valid() && fresh(cachedCommit) && Abs() == EMPTY
    {
      unmatchedValue := map[];
      cachedCommit := new Entry[0];
      cachedLen := 0;
    }

    method PutPrewriteRow(row: Entry)
      requires Valid()
      modifies this`unmatchedValue
      ensures Valid() && Abs() == Put(old(Abs()), row)
    {
      var key := KeyOf(row);
      if key in unmatchedValue && |row.value| == 0 {
        return;
      }
      unmatchedValue := unmatchedValue[key := row];
    }

    /** Takes the values from the prewrite, which is used up. */
    method MatchRow(row: Entry) returns (ok: bool, filled: Entry)
      requires Valid()
      modifies this`unmatchedValue
      ensures Valid() && (ok <==> KeyOf(row) in old(unmatchedValue))
      ensures ok ==>
                && unmatchedValue == old(unmatchedValue) - {KeyOf(row)}
                && filled == Filled(row, old(unmatchedValue)[KeyOf(row)])
                && Combines(filled, row, old(unmatchedValue)[KeyOf(row)])
      ensures !ok ==> unmatchedValue == old(unmatchedValue) && filled == row
    {
      var key := KeyOf(row);
      if key in unmatchedValue {
        filled := row.(value := unmatchedValue[key].value, oldValue := unmatchedValue[key].oldValue);
        unmatchedValue := unmatchedValue - {key};
        return true, filled;
      }
      return false, row;
    }

    method CacheCommitRow(row: Entry)
      requires Valid()
      modifies this`cachedCommit, this`cachedLen, cachedCommit
      ensures Valid() && (cachedCommit == old(cachedCommit) || fresh(cachedCommit))
      ensures Abs() == old(Abs()).(cached := old(Abs()).cached + [row])
    {
      if cachedLen == cachedCommit.Length {
        cachedCommit := Larger(cachedCommit, row);
      }
      cachedCommit[cachedLen] := row;
      cachedLen := cachedLen + 1;
    }

    /** Matches the cached commits and moves those that have a prewrite to the front, in place. */
    method MatchCachedRow() returns (rows: array<Entry>, top: nat)
      requires Valid()
      modifies this, cachedCommit
      ensures Valid() && fresh(cachedCommit) && rows == old(cachedCommit) && top <= rows.Length
      ensures var (u, matched) := MatchAll(old(unmatchedValue), old(Abs()).cached);
              Abs() == Matcher(u, []) && rows[..top] == matched
    {
      rows := cachedCommit;
      var n := cachedLen;
      ghost var u0, cached := unmatchedValue, rows[..n];
      cachedCommit := new Entry[0];
      cachedLen := 0;
      top := 0;
      var i := 0;
      assert rows[..0] == [] && cached[0..] == cached && [] + MatchAll(u0, cached).1 == MatchAll(u0, cached).1;
      while i < n
        invariant 0 <= top <= i <= n <= rows.Length && cachedLen == 0 && fresh(cachedCommit)
        invariant rows[i..n] == cached[i..]
        invariant Continues(u0, cached, rows[..top], unmatchedValue, cached[i..])
      {
        var cacheEntry := rows[i];
        assert cached[i..][0] == cacheEntry && cached[i..][1..] == cached[i + 1..];
        ghost var before := rows[..top];
        ContinuesStep(u0, cached, before, unmatchedValue, cached[i..]);
        var ok, filled := MatchRow(cacheEntry);
        if ok {
          rows[top] := filled;
          top := top + 1;
          assert rows[..top] == before + [filled];
        }
        i := i + 1;
      }
    }

    method RollbackRow(row: Entry)
      requires Valid()
      modifies this`unmatchedValue
      ensures Valid() && Abs() == old(Abs()).(unmatched := old(Abs()).unmatched - {KeyOf(row)})
    {
      unmatchedValue := unmatchedValue - {KeyOf(row)};
    }
  }

  /** With these rows out, matching the rest of the commits completes the whole matching. */
  ghost predicate Continues(u0: map<MatchKey, Entry>, cached: seq<Entry>, rows: seq<Entry>, u: map<MatchKey, Entry>,
                            rest: seq<Entry>) {
    MatchAll(u0, cached) == (MatchAll(u, rest).0, rows + MatchAll(u, rest).1)
  }

  lemma ContinuesStep(u0: map<MatchKey, Entry>, cached: seq<Entry>, rows: seq<Entry>, u: map<MatchKey, Entry>,
                      rest: seq<Entry>)
    requires Continues(u0, cached, rows, u, rest) && rest != []
    ensures var k := KeyOf(rest[0]);
            if k in u then Continues(u0, cached, rows + [Filled(rest[0], u[k])], u - {k}, rest[1..])
            else Continues(u0, cached, rows, u, rest[1..])
  {
    var k := KeyOf(rest[0]);
    if k in u {
      var row, later := Filled(rest[0], u[k]), MatchAll(u - {k}, rest[1..]).1;
      assert rows + ([row] + later) == rows + [row] + later;
    }
  }

  /** The channel on which the events of one region are sent. */
  class EventCh {
    var sent: seq<Out>

    constructor ()
      ensures sent == []
    {
      sent := [];
    }
  }

  ghost predicate AllEntries(events: seq<Event>) {
    forall i :: 0 <= i < |events| ==> events[i].Got?
  }

  lemma {:induction false} FailedStays(f: Feed, events: seq<Event>, m: nat, n: nat)
    requires m <= n <= |events| && AllEntries(events) && After(f, events, m).failed
    ensures After(f, events, n) == After(f, events, m)
  {
    if m < n {
      FailedStays(f, events, m, n - 1);
    }
  }

  class RegionFeedState {
    var sriTs: nat
    var initialized: bool
    var lastResolvedTs: nat
    var stopped: bool
    const matcher: MatcherState
    const outputCh: EventCh

    ghost function Repr(): set<object>
      reads this, matcher
    {
      {this, matcher, matcher.cachedCommit, outputCh}
    }

    ghost predicate Valid()
      reads this, matcher
    {
      matcher.Valid()
    }

    ghost function Abs(): Feed
      requires Valid()
      reads this, matcher, matcher.cachedCommit, outputCh
    {
      Feed(sriTs, initialized, matcher.Abs(), lastResolvedTs, outputCh.sent, stopped)
    }

    constructor (ts: nat, ch: EventCh)
      modifies ch
      ensures Valid() && outputCh == ch && fresh(Repr() - {ch}) && Abs() == Subscribe(ts, old(ch.sent))
    {
      sriTs, initialized, lastResolvedTs, stopped := ts, false, ts, false;
      var m := new MatcherState();
      matcher := m;
      outputCh := ch;
      new;
      ch.sent := ch.sent + [Resolved(ts)];
    }

    /** Sends rows until one cannot be assembled. */
    method EmitCached(rows: array<Entry>, top: nat) returns (ok: bool)
      requires Valid() && !stopped && top <= rows.Length
      modifies outputCh
      ensures EmitRows(old(Abs()), rows[..top]) == Abs().(failed := !ok)
    {
      var i := 0;
      ghost var all := rows[..top];
      assert all[0..] == all;
      while i < top
        invariant 0 <= i <= top && rows[..top] == all
        invariant EmitRows(old(Abs()), all) == EmitRows(Abs(), all[i..])
      {
        assert all[i..][0] == rows[i] && all[i..][1..] == all[i + 1..];
        if !rows[i].known {
          return false;
        }
        outputCh.sent := outputCh.sent + [Row(rows[i])];
        i := i + 1;
      }
      assert all[top..] == [];
      return true;
    }

    method Initialize() returns (ok: bool)
      requires Valid() && !stopped
      modifies this`initialized, matcher, matcher.cachedCommit, outputCh
      ensures Valid() && fresh(Repr() - old(Repr()))
      ensures forall e: Entry, inSpan :: e.kind.Initialized? ==>
                HandleEntry(old(Abs()), e, inSpan) == Abs().(failed := !ok)
    {
      initialized := true;
      var rows, top := matcher.MatchCachedRow();
      ok := EmitCached(rows, top);
    }

    method HandleCommitRow(entry: Entry) returns (ok: bool)
      requires Valid() && !stopped
      modifies matcher, matcher.cachedCommit, outputCh
      ensures Valid() && fresh(Repr() - old(Repr()))
      ensures HandleCommit(old(Abs()), entry) == Abs().(failed := !ok)
    {
      if entry.commitTs <= lastResolvedTs {
        return false;
      }
      var matched, row := matcher.MatchRow(entry);
      if !matched {
        if !initialized {
          matcher.CacheCommitRow(entry);
          return true;
        }
        return false;
      }
      assert [row][1..] == [];
      assert EmitRows(Abs(), [row])
             == if row.known then Abs().(out := Abs().out + [Row(row)]) else Abs().(failed := true);
      if !row.known {
        return false;
      }
      outputCh.sent := outputCh.sent + [Row(row)];
      return true;
    }

    method HandleOne(entry: Entry, inSpan: bool) returns (ok: bool)
      requires Valid() && !stopped
      modifies this`initialized, matcher, matcher.cachedCommit, outputCh
      ensures Valid() && fresh(Repr() - old(Repr()))
      ensures Step(old(Abs()), Got(entry, inSpan)) == Abs().(failed := !ok)
    {
      if !inSpan && !entry.kind.Initialized? {
        return true;
      }
      match entry.kind
      case Initialized =>
        ok := Initialize();
      case Committed =>
        if !entry.known || entry.commitTs <= lastResolvedTs {
          return false;
        }
        outputCh.sent := outputCh.sent + [Row(entry)];
        return true;
      case Prewrite =>
        matcher.PutPrewriteRow(entry);
        return true;
      case Commit =>
        ok := HandleCommitRow(entry);
      case Rollback =>
        matcher.RollbackRow(entry);
        return true;
    }

    /** Handles the entries up to the first that fails. */
    method HandleEventEntry(events: seq<Event>) returns (ok: bool)
      requires Valid() && !stopped && AllEntries(events)
      modifies this`initialized, matcher, matcher.cachedCommit, outputCh
      ensures Valid() && fresh(Repr() - old(Repr()))
      ensures After(old(Abs()), events, |events|) == Abs().(failed := !ok)
    {
      var i := 0;
      while i < |events|
        invariant 0 <= i <= |events| && Valid() && !stopped && fresh(Repr() - old(Repr()))
        invariant After(old(Abs()), events, i) == Abs()
      {
        ok := HandleOne(events[i].entry, events[i].inSpan);
        i := i + 1;
        if !ok {
          FailedStays(old(Abs()), events, i, |events|);
          return;
        }
      }
      return true;
    }

    method HandleResolvedTs(resolvedTs: nat)
      requires Valid() && !stopped
      modifies this`lastResolvedTs, outputCh
      ensures Valid() && Abs() == Step(old(Abs()), GotResolved(resolvedTs))
    {
      if !initialized {
        return;
      }
      if resolvedTs < lastResolvedTs {
        return;
      }
      lastResolvedTs := resolvedTs;
      outputCh.sent := outputCh.sent + [Resolved(resolvedTs)];
    }

    /** The region is handed back once, from where the next subscription carries on the output. */
    method HandleSingleRegionError() returns (handBack: bool)
      requires Valid()
      modifies this`sriTs, this`stopped
      ensures Valid() && stopped && handBack == !old(stopped)
      ensures Step(old(Abs()), Reconnect) == Subscribe(sriTs, outputCh.sent)
    {
      if lastResolvedTs > sriTs {
        sriTs := lastResolvedTs;
      }
      if stopped {
        return false;
      }
      stopped := true;
      return true;
    }

    /** A region whose stream is lost is handed back in the same way, unless it already was. */
    method Evict() returns (handBack: bool)
      requires Valid()
      modifies this`sriTs, this`stopped
      ensures Valid() && stopped && handBack == !old(stopped)
      ensures if handBack then Step(old(Abs()), Reconnect) == Subscribe(sriTs, outputCh.sent) else sriTs == old(sriTs)
    {
      if stopped {
        return false;
      }
      stopped := true;
      if lastResolvedTs > sriTs {
        sriTs := lastResolvedTs;
      }
      return true;
    }
  }
}
