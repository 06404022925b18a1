/** The merge of the tables' transactions into one order. */
module TxnMerge {
  import opened SinkTypes

  datatype HeapEntry = HeapEntry(ts: nat, bucket: nat)

  predicate Sorted(txns: seq<Txn>) {
    forall i, j :: 0 <= i < j < |txns| ==> txns[i].commitTs <= txns[j].commitTs
  }

  predicate AllSorted(groups: seq<seq<Txn>>) {
    forall b :: 0 <= b < |groups| ==> Sorted(groups[b])
  }

  /** What came from one bucket, in order. */
  function From(out: seq<Txn>, tags: seq<nat>, bucket: nat): seq<Txn>
    requires |out| == |tags|
  {
    if out == [] then []
    else
      var last := |out| - 1;
      From(out[..last], tags[..last], bucket) + (if tags[last] == bucket then [out[last]] else [])
  }

  /** The tags say from which group each transaction of `out` came: every group is
      there, each of its transactions once and in the group's own order. */
  ghost predicate Merges(out: seq<Txn>, tags: seq<nat>, groups: seq<seq<Txn>>) {
    && |out| == |tags|
    && (forall i :: 0 <= i < |tags| ==> tags[i] < |groups|)
    && forall b {:trigger groups[b]} :: 0 <= b < |groups| ==> From(out, tags, b) == groups[b]
  }

  ghost function Total(groups: seq<seq<Txn>>): nat {
    if groups == [] then 0 else Total(groups[..|groups| - 1]) + |groups[|groups| - 1]|
  }

  lemma {:induction false} TotalDrops(groups: seq<seq<Txn>>, b: nat)
    requires b < |groups| && groups[b] != []
    ensures Total(groups[b := groups[b][1..]]) + 1 == Total(groups)
  {
    var groups', last := groups[b := groups[b][1..]], |groups| - 1;
    if b < last {
      TotalDrops(groups[..last], b);
      assert groups'[..last] == groups[..last][b := groups[b][1..]];
    } else {
      assert groups'[..last] == groups[..last];
    }
  }

  lemma FromSnoc(out: seq<Txn>, tags: seq<nat>, t: Txn, tag: nat, bucket: nat)
    requires |out| == |tags|
    ensures From(out + [t], tags + [tag], bucket) == From(out, tags, bucket) + (if tag == bucket then [t] else [])
  {
    assert (out + [t])[..|out|] == out && (tags + [tag])[..|tags|] == tags;
  }

  /** Nothing is made up: the merge is as long as the groups together. */
  lemma {:induction false} MergeLength(out: seq<Txn>, tags: seq<nat>, groups: seq<seq<Txn>>)
    requires Merges(out, tags, groups)
    ensures |out| == Total(groups)
    decreases |out|
  {
    if out == [] {
      EmptyTotal(groups);
    } else {
      var last := |out| - 1;
      var t, b, front, ftags := out[last], tags[last], out[..last], tags[..last];
      assert groups[b] == From(front, ftags, b) + [t];
      var groups' := groups[b := From(front, ftags, b)];
      forall c | 0 <= c < |groups'| ensures From(front, ftags, c) == groups'[c] {
        assert c != b ==> From(out, tags, c) == groups[c];
      }
      MergeLength(front, ftags, groups');
      TotalGrows(groups', b, t);
      assert groups'[b := groups'[b] + [t]] == groups;
    }
  }

  lemma {:induction false} EmptyTotal(groups: seq<seq<Txn>>)
    requires forall b :: 0 <= b < |groups| ==> groups[b] == []
    ensures Total(groups) == 0
  {
    if groups != [] {
      EmptyTotal(groups[..|groups| - 1]);
    }
  }

  lemma {:induction false} TotalGrows(groups: seq<seq<Txn>>, b: nat, t: Txn)
    requires b < |groups|
    ensures Total(groups[b := groups[b] + [t]]) == Total(groups) + 1
  {
    var groups', last := groups[b := groups[b] + [t]], |groups| - 1;
    if b < last {
      TotalGrows(groups[..last], b, t);
      assert groups'[..last] == groups[..last][b := groups[b] + [t]];
    } else {
      assert groups'[..last] == groups[..last];
    }
  }

  /** Part of the way: what was handed out and what is left of each group make up the group. */
  ghost predicate Merging(out: seq<Txn>, tags: seq<nat>, rest: seq<seq<Txn>>, groups: seq<seq<Txn>>) {
    && |out| == |tags| && |rest| == |groups|
    && (forall i :: 0 <= i < |tags| ==> tags[i] < |groups|)
    && forall b {:trigger groups[b]} {:trigger rest[b]} :: 0 <= b < |groups| ==>
         From(out, tags, b) + rest[b] == groups[b]
  }

  lemma MergingStart(groups: seq<seq<Txn>>)
    ensures Merging([], [], groups, groups)
  {
    assert forall b :: 0 <= b < |groups| ==> [] + groups[b] == groups[b];
  }

  lemma MergingEnd(out: seq<Txn>, tags: seq<nat>, rest: seq<seq<Txn>>, groups: seq<seq<Txn>>)
    requires Merging(out, tags, rest, groups) && forall b :: 0 <= b < |rest| ==> rest[b] == []
    ensures Merges(out, tags, groups)
  {
    forall b | 0 <= b < |groups| ensures From(out, tags, b) == groups[b] {
      assert rest[b] == [];
    }
  }

  lemma MergingStep(out: seq<Txn>, tags: seq<nat>, rest: seq<seq<Txn>>, groups: seq<seq<Txn>>, bucket: nat)
    requires Merging(out, tags, rest, groups) && bucket < |rest| && rest[bucket] != []
    ensures Merging(out + [rest[bucket][0]], tags + [bucket], rest[bucket := rest[bucket][1..]], groups)
  {
    var t, rest' := rest[bucket][0], rest[bucket := rest[bucket][1..]];
    forall b | 0 <= b < |groups| ensures From(out + [t], tags + [bucket], b) + rest'[b] == groups[b] {
      FromSnoc(out, tags, t, bucket, b);
      assert From(out, tags, b) + rest[b] == groups[b];
    }
  }

  /** Everything is sorted, and nothing handed out is later than anything left. */
  ghost predicate Ordered(out: seq<Txn>, rest: seq<seq<Txn>>) {
    && Sorted(out)
    && AllSorted(rest)
    && (forall i, b :: 0 <= i < |out| && 0 <= b < |rest| && rest[b] != [] ==> out[i].commitTs <= rest[b][0].commitTs)
  }

  lemma OrderedStep(out: seq<Txn>, rest: seq<seq<Txn>>, bucket: nat)
    requires Ordered(out, rest) && bucket < |rest| && rest[bucket] != []
    requires forall b :: 0 <= b < |rest| && rest[b] != [] ==> rest[bucket][0].commitTs <= rest[b][0].commitTs
    ensures Ordered(out + [rest[bucket][0]], rest[bucket := rest[bucket][1..]])
  {
  }

  lemma LeastEntry(entries: set<HeapEntry>) returns (e: HeapEntry)
    requires entries != {}
    ensures e in entries && forall f :: f in entries ==> e.ts <= f.ts
  {
    e :| e in entries;
    var rest := entries - {e};
    if rest != {} {
      var f := LeastEntry(rest);
      if f.ts < e.ts {
        e := f;
      }
    }
  }

  class TxnsHeap {
    var inner: set<HeapEntry>
    var txnsGroup: seq<seq<Txn>>

    /** The heap has one entry for each group that is not used up: its first commit timestamp. */
    ghost predicate Valid()
      reads this
    {
      && (forall e :: e in inner ==>
            e.bucket < |txnsGroup| && txnsGroup[e.bucket] != [] && e.ts == txnsGroup[e.bucket][0].commitTs)
      && (forall b :: 0 <= b < |txnsGroup| && txnsGroup[b] != [] ==>
            HeapEntry(txnsGroup[b][0].commitTs, b) in inner)
    }

    constructor (groups: seq<seq<Txn>>)
      ensures Valid() && txnsGroup == groups
    {
      txnsGroup := groups;
      inner := {};
      new;
      var b := 0;
      while b < |groups|
        invariant 0 <= b <= |groups| && txnsGroup == groups
        invariant forall e :: e in inner ==>
                    e.bucket < b && groups[e.bucket] != [] && e.ts == groups[e.bucket][0].commitTs
        invariant forall c :: 0 <= c < b && groups[c] != [] ==> HeapEntry(groups[c][0].commitTs, c) in inner
      {
        if |groups[b]| != 0 {
          inner := inner + {HeapEntry(groups[b][0].commitTs, b)};
        }
        b := b + 1;
      }
    }

    /** Takes out some entry with the least timestamp. */
    method PopEntry() returns (e: HeapEntry)
      requires inner != {}
      modifies this`inner
      ensures e in old(inner) && inner == old(inner) - {e}
      ensures forall f :: f in old(inner) ==> e.ts <= f.ts
    {
      ghost var least := LeastEntry(inner);
      e :| e in inner && forall f :: f in inner ==> e.ts <= f.ts;
      inner := inner - {e};
    }

    /** Hands out the head of the group with the least first timestamp. */
    method Next() returns (txn: Txn, bucket: nat)
      requires Valid() && inner != {}
      modifies this
      ensures Valid()
      ensures bucket < |old(txnsGroup)| && old(txnsGroup)[bucket] != [] && txn == old(txnsGroup)[bucket][0]
      ensures txnsGroup == old(txnsGroup)[bucket := old(txnsGroup)[bucket][1..]]
      ensures forall b :: 0 <= b < |old(txnsGroup)| && old(txnsGroup)[b] != [] ==>
                txn.commitTs <= old(txnsGroup)[b][0].commitTs
    {
      var minEntry := PopEntry();
      bucket := minEntry.bucket;
      txn := txnsGroup[bucket][0];
      txnsGroup := txnsGroup[bucket := txnsGroup[bucket][1..]];
      if |txnsGroup[bucket]| > 0 {
        inner := inner + {HeapEntry(txnsGroup[bucket][0].commitTs, bucket)};
      }
    }

    /** Every transaction is handed out exactly once, each table's in its own order;
        and if each table's list is sorted by commit timestamp, so is the whole. */
    method Iter() returns (out: seq<Txn>, ghost tags: seq<nat>)
      requires Valid()
      modifies this
      ensures Merges(out, tags, old(txnsGroup))
      ensures AllSorted(old(txnsGroup)) ==> Sorted(out)
    {
      out, tags := [], [];
      ghost var groups := txnsGroup;
      ghost var sorted := AllSorted(groups);
      MergingStart(groups);
      while inner != {}
        invariant Valid() && Merging(out, tags, txnsGroup, groups)
        invariant sorted ==> Ordered(out, txnsGroup)
        decreases Total(txnsGroup)
      {
        ghost var before := txnsGroup;
        var txn, bucket := Next();
        TotalDrops(before, bucket);
        MergingStep(out, tags, before, groups, bucket);
        if sorted {
          OrderedStep(out, before, bucket);
        }
        out, tags := out + [txn], tags + [bucket];
      }
      assert forall b :: 0 <= b < |txnsGroup| ==> txnsGroup[b] == [];
      MergingEnd(out, tags, txnsGroup, groups);
    }
  }
}
