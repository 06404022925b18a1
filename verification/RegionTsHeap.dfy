/** The heap of regions by resolved timestamp, with the position of every item kept in the
    item itself and a map from regions to items beside it. */
module RegionTsHeap {
  // ----- Heap order on the keys alone -----

  function Parent(k: nat): nat {
    if k == 0 then 0 else (k - 1) / 2
  }

  predicate IsChild(k: nat, i: nat) {
    k > 0 && Parent(k) == i
  }

  /** The item at `k` is not below its parent. */
  predicate Above(keys: seq<nat>, k: nat)
    requires k < |keys|
  {
    keys[Parent(k)] <= keys[k]
  }

  ghost predicate HeapOrder(keys: seq<nat>, n: nat)
    requires n <= |keys|
  {
    forall k {:trigger Above(keys, k)} :: 0 <= k < n ==> Above(keys, k)
  }

  /** The children of `i` are not below its parent. */
  ghost predicate Bridged(keys: seq<nat>, i: nat, n: nat)
    requires n <= |keys| && i < |keys|
  {
    i > 0 ==> forall k {:trigger IsChild(k, i)} :: 0 <= k < n && IsChild(k, i) ==> keys[Parent(i)] <= keys[k]
  }

  ghost predicate BelowChildren(keys: seq<nat>, i: nat, n: nat)
    requires n <= |keys| && i < |keys|
  {
    forall k {:trigger IsChild(k, i)} :: 0 <= k < n && IsChild(k, i) ==> keys[i] <= keys[k]
  }

  ghost predicate LeastChild(keys: seq<nat>, i: nat, j: nat, n: nat)
    requires n <= |keys| && j < |keys|
  {
    forall k {:trigger IsChild(k, i)} :: 0 <= k < n && IsChild(k, i) ==> keys[j] <= keys[k]
  }

  /** In order but for the item at `i` and its parent. */
  ghost predicate InOrderBelow(keys: seq<nat>, i: nat, n: nat)
    requires n <= |keys|
  {
    i < n && (forall k {:trigger Above(keys, k)} :: 0 <= k < n && k != i ==> Above(keys, k)) && Bridged(keys, i, n)
  }

  /** In order but for the item at `i` and its children. */
  ghost predicate InOrderAbove(keys: seq<nat>, i: nat, n: nat)
    requires n <= |keys|
  {
    && i < n
    && (forall k {:trigger Above(keys, k)} :: 0 <= k < n && Parent(k) != i ==> Above(keys, k))
    && Above(keys, i)
    && Bridged(keys, i, n)
  }

  /** In order but for pairs with the item at `i`. */
  ghost predicate InOrderAround(keys: seq<nat>, i: nat, n: nat)
    requires n <= |keys|
  {
    && i < n
    && (forall k {:trigger Above(keys, k)} :: 0 <= k < n && k != i && Parent(k) != i ==> Above(keys, k))
    && Bridged(keys, i, n)
  }

  function Swapped<T>(s: seq<T>, i: nat, j: nat): seq<T>
    requires i < |s| && j < |s|
  {
    s[i := s[j]][j := s[i]]
  }

  /** The root is least. */
  lemma {:induction false} RootIsLeast(keys: seq<nat>, n: nat, k: nat)
    requires n <= |keys| && HeapOrder(keys, n) && k < n
    ensures keys[0] <= keys[k]
  {
    if k > 0 {
      assert Above(keys, k);
      RootIsLeast(keys, n, Parent(k));
    }
  }

  /** Moving up: an item below its parent changes places with it. */
  lemma UpStep(keys: seq<nat>, j: nat, n: nat)
    requires n <= |keys| && InOrderBelow(keys, j, n) && j > 0 && keys[j] < keys[Parent(j)]
    ensures InOrderBelow(Swapped(keys, Parent(j), j), Parent(j), n)
  {
    var i := Parent(j);
    var keys' := Swapped(keys, i, j);
    forall k | 0 <= k < n && k != i ensures Above(keys', k) {
      assert k != j ==> Above(keys, k);
      assert Above(keys, i) || i == j;
      assert IsChild(k, j) || k == 0 || Parent(k) != j;
    }
    forall k | i > 0 && 0 <= k < n && IsChild(k, i) ensures keys'[Parent(i)] <= keys'[k] {
      assert k != j ==> Above(keys, k);
      assert Above(keys, i);
    }
  }

  lemma UpDone(keys: seq<nat>, j: nat, n: nat)
    requires n <= |keys| && InOrderBelow(keys, j, n) && (j == 0 || keys[Parent(j)] <= keys[j])
    ensures HeapOrder(keys, n)
  {
    forall k | 0 <= k < n ensures Above(keys, k) {
      assert k != j ==> Above(keys, k);
    }
  }

  /** Moving down: an item above its lesser child changes places with it. */
  lemma DownStep(keys: seq<nat>, i: nat, j: nat, n: nat)
    requires n <= |keys| && InOrderAround(keys, i, n) && j < n && IsChild(j, i) && keys[j] < keys[i]
             && LeastChild(keys, i, j, n)
    ensures InOrderAbove(Swapped(keys, i, j), j, n)
  {
    var keys' := Swapped(keys, i, j);
    forall k | 0 <= k < n && Parent(k) != j ensures Above(keys', k) {
      assert IsChild(k, i) || k == 0 || Parent(k) != i;
      if k != i && k != j && Parent(k) != i {
        assert Above(keys, k);
      }
    }
    assert Above(keys', j);
    forall k | 0 <= k < n && IsChild(k, j) ensures keys'[Parent(j)] <= keys'[k] {
      assert Above(keys, k);
    }
  }

  lemma DownDone(keys: seq<nat>, i: nat, n: nat)
    requires n <= |keys| && InOrderAbove(keys, i, n)
    requires BelowChildren(keys, i, n)
    ensures HeapOrder(keys, n)
  {
    forall k | 0 <= k < n ensures Above(keys, k) {
      assert Parent(k) != i ==> Above(keys, k);
      assert IsChild(k, i) || k == 0 || Parent(k) != i;
    }
  }

  /** An item that stays above neither child may still be below its parent. */
  lemma NotDown(keys: seq<nat>, i: nat, n: nat)
    requires n <= |keys| && InOrderAround(keys, i, n)
    requires BelowChildren(keys, i, n)
    ensures InOrderBelow(keys, i, n)
  {
    forall k | 0 <= k < n && k != i ensures Above(keys, k) {
      assert Parent(k) != i ==> Above(keys, k);
      assert IsChild(k, i) || k == 0 || Parent(k) != i;
    }
  }

  lemma AboveIsAround(keys: seq<nat>, i: nat, n: nat)
    requires n <= |keys| && InOrderAbove(keys, i, n)
    ensures InOrderAround(keys, i, n)
  {
  }

  /** Changing one key of a heap leaves everything in order around it. */
  lemma ChangedKey(keys: seq<nat>, i: nat, x: nat)
    requires i < |keys| && HeapOrder(keys, |keys|)
    ensures InOrderAround(keys[i := x], i, |keys|)
  {
    var keys' := keys[i := x];
    assert Above(keys, i);
    forall k | 0 <= k < |keys| && k != i && Parent(k) != i ensures Above(keys', k) {
      assert Above(keys, k);
    }
    forall k | i > 0 && 0 <= k < |keys| && IsChild(k, i) ensures keys'[Parent(i)] <= keys'[k] {
      assert Above(keys, k);
    }
  }

  lemma Appended(keys: seq<nat>, x: nat)
    requires HeapOrder(keys, |keys|)
    ensures InOrderBelow(keys + [x], |keys|, |keys| + 1)
  {
    var keys' := keys + [x];
    forall k | 0 <= k < |keys'| && k != |keys| ensures Above(keys', k) {
      assert Above(keys, k);
    }
  }

  lemma ShorterHeap(keys: seq<nat>, n: nat)
    requires n <= |keys| && HeapOrder(keys, n)
    ensures HeapOrder(keys[..n], n)
  {
    var keys' := keys[..n];
    forall k | 0 <= k < n ensures Above(keys', k) {
      assert Above(keys, k);
    }
  }

  lemma AroundAgrees(a: seq<nat>, b: seq<nat>, i: nat, n: nat)
    requires n <= |a| == |b| && InOrderAround(a, i, n) && forall k :: 0 <= k < n ==> a[k] == b[k]
    ensures InOrderAround(b, i, n)
  {
    forall k | 0 <= k < n && k != i && Parent(k) != i ensures Above(b, k) {
      assert Above(a, k);
    }
  }

  /** After the exchange with the last item, the others are in order around the place. */
  lemma LastMoved(keys: seq<nat>, i: nat)
    requires i < |keys| - 1 && HeapOrder(keys, |keys|)
    ensures InOrderAround(Swapped(keys, i, |keys| - 1), i, |keys| - 1)
  {
    var n := |keys| - 1;
    ChangedKey(keys, i, keys[n]);
    AroundShorter(keys[i := keys[n]], i, n);
    AroundAgrees(keys[i := keys[n]], Swapped(keys, i, n), i, n);
  }

  lemma AroundShorter(keys: seq<nat>, i: nat, n: nat)
    requires i < n == |keys| - 1 && InOrderAround(keys, i, |keys|)
    ensures InOrderAround(keys, i, n)
  {
  }

  // ----- Items and their places -----

  datatype TsItem = TsItem(resolvedTs: nat, eventTime: nat, penalty: nat)

  class RegionTsInfo {
    const regionID: nat
    var index: int
    var ts: TsItem

    constructor (regionID: nat, ts: TsItem)
      ensures this.regionID == regionID && this.ts == ts
    {
      this.regionID, this.ts, index := regionID, ts, 0;
    }
  }

  /** Items are ordered by event time or by resolved timestamp, all in the same way. */
  function Key(ts: TsItem, byEvTime: bool): nat {
    if byEvTime then ts.eventTime else ts.resolvedTs
  }

  function KeyOf(x: RegionTsInfo, byEvTime: bool): nat
    reads x
  {
    Key(x.ts, byEvTime)
  }

  /** What an update makes of a tracked timestamp: a resolved timestamp that does not rise adds to
      the penalty if it comes later, one that rises is taken over and ends the penalty. */
  function Merged(old_: TsItem, new_: TsItem, byEvTime: bool): (r: TsItem)
    ensures old_.resolvedTs <= r.resolvedTs
    ensures Key(old_, byEvTime) <= Key(r, byEvTime)
    ensures !byEvTime ==> r.resolvedTs == if new_.resolvedTs > old_.resolvedTs then new_.resolvedTs else old_.resolvedTs
  {
    if byEvTime then
      if new_.eventTime > old_.eventTime then old_.(eventTime := new_.eventTime) else old_
    else if new_.resolvedTs <= old_.resolvedTs && new_.eventTime > old_.eventTime then
      old_.(penalty := old_.penalty + 1, eventTime := new_.eventTime)
    else if new_.resolvedTs > old_.resolvedTs then TsItem(new_.resolvedTs, new_.eventTime, 0)
    else old_
  }

  /** What updates make of it, one after the other. */
  function MergedAll(start: TsItem, updates: seq<TsItem>, n: nat, byEvTime: bool): TsItem
    requires n <= |updates|
  {
    if n == 0 then start else Merged(MergedAll(start, updates, n - 1, byEvTime), updates[n - 1], byEvTime)
  }

  /** The update brings a resolved timestamp above all before it. */
  ghost predicate Rises(start: TsItem, updates: seq<TsItem>, i: nat)
    requires i < |updates|
  {
    updates[i].resolvedTs > start.resolvedTs && forall j :: 0 <= j < i ==> updates[i].resolvedTs > updates[j].resolvedTs
  }

  predicate TimesAscend(start: TsItem, updates: seq<TsItem>) {
    forall i :: 0 <= i < |updates| ==>
      updates[i].eventTime > if i == 0 then start.eventTime else updates[i - 1].eventTime
  }

  ghost predicate IsHighest(ts: nat, start: TsItem, updates: seq<TsItem>, n: nat)
    requires n <= |updates|
  {
    && ts >= start.resolvedTs && (forall i :: 0 <= i < n ==> ts >= updates[i].resolvedTs)
    && (ts == start.resolvedTs || exists i :: 0 <= i < n && ts == updates[i].resolvedTs)
  }

  /** The penalty is the number of updates since the one that last brought the resolved timestamp up. */
  ghost predicate Penalized(r: TsItem, start: TsItem, updates: seq<TsItem>, n: nat)
    requires n <= |updates|
  {
    || (r.penalty == start.penalty + n && forall i :: 0 <= i < n ==> !Rises(start, updates, i))
    || (r.penalty < n && Rises(start, updates, n - 1 - r.penalty)
        && forall i :: n - 1 - r.penalty < i < n ==> !Rises(start, updates, i))
  }

  /** By resolved timestamp, updates that come one after another bring a region to the highest of them. */
  lemma {:induction false} StallsAreCounted(start: TsItem, updates: seq<TsItem>, n: nat)
    requires n <= |updates| && TimesAscend(start, updates)
    ensures var r := MergedAll(start, updates, n, false);
            && IsHighest(r.resolvedTs, start, updates, n) && Penalized(r, start, updates, n)
            && r.eventTime == if n == 0 then start.eventTime else updates[n - 1].eventTime
  {
    if n > 0 {
      StallsAreCounted(start, updates, n - 1);
      var r, u := MergedAll(start, updates, n - 1, false), updates[n - 1];
      assert Rises(start, updates, n - 1) <==> u.resolvedTs > r.resolvedTs;
    }
  }

  /** By event time, only the latest event time counts. */
  lemma {:induction false} LatestEventCounts(start: TsItem, updates: seq<TsItem>, n: nat)
    requires n <= |updates|
    ensures var r := MergedAll(start, updates, n, true);
            && r.resolvedTs == start.resolvedTs && r.penalty == start.penalty && r.eventTime >= start.eventTime
            && (forall i :: 0 <= i < n ==> r.eventTime >= updates[i].eventTime)
            && (r.eventTime == start.eventTime || exists i :: 0 <= i < n && r.eventTime == updates[i].eventTime)
  {
    if n > 0 {
      LatestEventCounts(start, updates, n - 1);
    }
  }

  ghost predicate Keyed(h: seq<RegionTsInfo>, keys: seq<nat>, byEvTime: bool)
    reads h
  {
    |keys| == |h| && forall i :: 0 <= i < |h| ==> keys[i] == KeyOf(h[i], byEvTime)
  }

  /** The heap holds exactly the given items, and every item knows its place. */
  ghost predicate Placed(h: seq<RegionTsInfo>, items: set<RegionTsInfo>)
    reads items
  {
    && (forall i :: 0 <= i < |h| ==> h[i] in items && h[i].index == i)
    && (forall x :: x in items ==> 0 <= x.index < |h| && h[x.index] == x)
  }

  /** The map holds exactly the given items, under their regions. */
  ghost predicate Mapped(m: map<nat, RegionTsInfo>, items: set<RegionTsInfo>) {
    && (forall x :: x in items ==> x.regionID in m && m[x.regionID] == x)
    && (forall r :: r in m ==> m[r] in items && m[r].regionID == r)
  }

  class RegionTsManager {
    const sortByEvTime: bool
    var m: map<nat, RegionTsInfo>
    var h: seq<RegionTsInfo>
    ghost var items: set<RegionTsInfo>

    // The keys of the items, place by place.
    ghost var keys: seq<nat>

    /** Everything but the order. */
    ghost predicate InPlace()
      reads this, items, h
    {
      Placed(h, items) && Keyed(h, keys, sortByEvTime)
    }

    ghost predicate Valid()
      reads this, items, h
    {
      InPlace() && Mapped(m, items) && HeapOrder(keys, |h|)
    }

    constructor (sortByEvTime: bool)
      ensures Valid() && m == map[] && this.sortByEvTime == sortByEvTime
    {
      this.sortByEvTime := sortByEvTime;
      m, h, items, keys := map[], [], {}, [];
    }

    method Swap(i: nat, j: nat)
      requires InPlace() && i < |h| && j < |h|
      modifies this`h, this`keys, items`index
      ensures h == Swapped(old(h), i, j) && InPlace()
      ensures keys == Swapped(old(keys), i, j)
    {
      keys := Swapped(keys, i, j);
      h := h[i := h[j]][j := h[i]];
      h[i].index := i;
      h[j].index := j;
    }

    /** Moves the item at `j0` up to where it belongs among the first `n`. */
    method Up(j0: nat, n: nat)
      requires InPlace() && j0 < n <= |h| && InOrderBelow(keys, j0, n)
      modifies this`h, this`keys, items`index
      ensures InPlace() && |h| == |old(h)| && HeapOrder(keys, n) && (n < |h| ==> h[n] == old(h)[n])
    {
      var j := j0;
      while j > 0 && KeyOf(h[j], sortByEvTime) < KeyOf(h[Parent(j)], sortByEvTime)
        invariant 0 <= j < n <= |h| == |old(h)| && InPlace() && InOrderBelow(keys, j, n)
                  && (n < |h| ==> h[n] == old(h)[n])
      {
        UpStep(keys, j, n);
        Swap(Parent(j), j);
        j := Parent(j);
      }
      UpDone(keys, j, n);
    }

    /** The lesser of the children that lie before `n`. */
    method LesserChild(i: nat, n: nat) returns (j: nat)
      requires Keyed(h, keys, sortByEvTime) && n <= |h| && 2 * i + 1 < n
      ensures j < n && IsChild(j, i) && LeastChild(keys, i, j, n)
    {
      j := 2 * i + 1;
      if j + 1 < n && KeyOf(h[j + 1], sortByEvTime) < KeyOf(h[j], sortByEvTime) {
        j := j + 1;
      }
    }

    /** One step down among the first `n`, if the item is above its lesser child. */
    method DownOnce(i: nat, n: nat) returns (moved: bool, j: nat)
      requires InPlace() && i < n <= |h| && InOrderAround(keys, i, n)
      modifies this`h, this`keys, items`index
      ensures InPlace() && |h| == |old(h)| && (n < |h| ==> h[n] == old(h)[n])
      ensures moved ==> i < j < n && InOrderAbove(keys, j, n)
      ensures !moved ==> h == old(h) && keys == old(keys) && BelowChildren(keys, i, n)
    {
      if 2 * i + 1 >= n {
        return false, i;
      }
      j := LesserChild(i, n);
      if !(KeyOf(h[j], sortByEvTime) < KeyOf(h[i], sortByEvTime)) {
        return false, i;
      }
      DownStep(keys, i, j, n);
      Swap(i, j);
      return true, j;
    }

    /** Moves the item at `i0` down among the first `n`; `moved` says whether it had to. */
    method Down(i0: nat, n: nat) returns (moved: bool)
      requires InPlace() && i0 < n <= |h| && InOrderAround(keys, i0, n)
      modifies this`h, this`keys, items`index
      ensures InPlace() && |h| == |old(h)| && (n < |h| ==> h[n] == old(h)[n])
      ensures moved ==> HeapOrder(keys, n)
      ensures !moved ==> h == old(h) && keys == old(keys) && InOrderBelow(keys, i0, n)
    {
      var i;
      moved, i := DownOnce(i0, n);
      if !moved {
        NotDown(keys, i0, n);
        return;
      }
      var more := true;
      while more
        invariant i < n <= |h| == |old(h)| && InPlace() && (n < |h| ==> h[n] == old(h)[n])
        invariant InOrderAbove(keys, i, n) && (!more ==> BelowChildren(keys, i, n))
        decreases n - i, more
      {
        AboveIsAround(keys, i, n);
        var j;
        more, j := DownOnce(i, n);
        if more {
          i := j;
        }
      }
      DownDone(keys, i, n);
    }

    /** Restores order after the key of one item has changed. */
    method Fix(i: nat)
      requires InPlace() && i < |h| && InOrderAround(keys, i, |h|)
      modifies this`h, this`keys, items`index
      ensures InPlace() && |h| == |old(h)| && HeapOrder(keys, |h|)
    {
      var moved := Down(i, |h|);
      if !moved {
        Up(i, |h|);
      }
    }

    /** Adds an item at the end and moves it up. */
    method Push(item: RegionTsInfo)
      requires InPlace() && HeapOrder(keys, |h|) && item !in items
      modifies this`h, this`keys, this`items, items`index, item`index
      ensures InPlace() && HeapOrder(keys, |h|) && items == old(items) + {item}
    {
      ghost var before := keys;
      item.index := |h|;
      h := h + [item];
      keys := keys + [KeyOf(item, sortByEvTime)];
      items := items + {item};
      Appended(before, KeyOf(item, sortByEvTime));
      Up(|h| - 1, |h|);
    }

    /** Takes the last item off. */
    method TakeLast() returns (item: RegionTsInfo)
      requires InPlace() && h != [] && HeapOrder(keys, |h| - 1)
      modifies this`h, this`keys, this`items, items`index
      ensures item == old(h)[|old(h)| - 1] && items == old(items) - {item} && item.index == -1
      ensures InPlace() && HeapOrder(keys, |h|)
    {
      var n := |h| - 1;
      item := h[n];
      ShorterHeap(keys, n);
      items := items - {item};
      item.index := -1;
      h := h[..n];
      keys := keys[..n];
    }

    method SwapWithLast(i: nat)
      requires InPlace() && i < |h| - 1 && HeapOrder(keys, |h|)
      modifies this`h, this`keys, items`index
      ensures InPlace() && |h| == |old(h)| && h[|h| - 1] == old(h)[i] && InOrderAround(keys, i, |h| - 1)
    {
      LastMoved(keys, i);
      Swap(i, |h| - 1);
    }

    /** The item at `i` changes places with the last one, which then moves down. */
    method ToEnd(i: nat) returns (moved: bool)
      requires InPlace() && i < |h| - 1 && HeapOrder(keys, |h|)
      modifies this`h, this`keys, items`index
      ensures InPlace() && |h| == |old(h)| && h[|h| - 1] == old(h)[i]
      ensures if moved then HeapOrder(keys, |h| - 1) else InOrderBelow(keys, i, |h| - 1)
    {
      SwapWithLast(i);
      moved := Down(i, |h| - 1);
    }

    method RemoveAt(i: nat) returns (item: RegionTsInfo)
      requires InPlace() && i < |h| && HeapOrder(keys, |h|)
      modifies this`h, this`keys, this`items, items`index
      ensures item == old(h)[i] && items == old(items) - {item} && item.index == -1
      ensures InPlace() && HeapOrder(keys, |h|)
    {
      if |h| - 1 != i {
        var moved := ToEnd(i);
        if !moved {
          Up(i, |h| - 1);
        }
      }
      item := TakeLast();
    }

    method PopRoot() returns (item: RegionTsInfo)
      requires InPlace() && h != [] && HeapOrder(keys, |h|)
      modifies this`h, this`keys, this`items, items`index
      ensures item == old(h)[0] && items == old(items) - {item} && item.index == -1
      ensures InPlace() && HeapOrder(keys, |h|)
    {
      if |h| > 1 {
        var moved := ToEnd(0);
        if !moved {
          UpDone(keys, 0, |h| - 1);
        }
      }
      item := TakeLast();
    }

    // ----- The manager's operations -----

    lemma LeastOfAll()
      requires Valid() && h != []
      ensures forall x :: x in items ==> KeyOf(h[0], sortByEvTime) <= KeyOf(x, sortByEvTime)
    {
      forall x | x in items ensures KeyOf(h[0], sortByEvTime) <= KeyOf(x, sortByEvTime) {
        RootIsLeast(keys, |h|, x.index);
      }
    }

    /** A new region is added; a known one is merged into and finds its new place. */
    method Upsert(item: RegionTsInfo)
      requires Valid() && item !in items
      modifies this, items, item`index
      ensures Valid()
      ensures if item.regionID in old(m)
              then m == old(m) && items == old(items)
                   && m[item.regionID].ts == Merged(old(m[item.regionID].ts), item.ts, sortByEvTime)
              else m == old(m)[item.regionID := item] && items == old(items) + {item}
      ensures forall x :: x in old(items) && x.regionID != item.regionID ==> x.ts == old(x.ts)
    {
      if item.regionID in m {
        Update(m[item.regionID], Merged(m[item.regionID].ts, item.ts, sortByEvTime));
      } else {
        Push(item);
        m := m[item.regionID := item];
      }
    }

    method Update(x: RegionTsInfo, ts: TsItem)
      requires Valid() && x in items
      modifies this`h, this`keys, items`index, x`ts
      ensures Valid() && x.ts == ts
    {
      ChangedKey(keys, x.index, Key(ts, sortByEvTime));
      x.ts := ts;
      keys := keys[x.index := Key(ts, sortByEvTime)];
      Fix(x.index);
    }

    /** Gives back an item with the least key, if there is any. */
    method Pop() returns (item: RegionTsInfo?)
      requires Valid()
      modifies this, items`index
      ensures Valid()
      ensures item == null <==> old(m) == map[]
      ensures item != null ==>
                && item in old(items) && items == old(items) - {item} && m == old(m) - {item.regionID}
                && forall x :: x in old(items) ==> KeyOf(item, sortByEvTime) <= KeyOf(x, sortByEvTime)
      ensures item == null ==> m == old(m) && items == old(items)
    {
      if |m| == 0 {
        return null;
      }
      item := PopLeast();
    }

    method PopLeast() returns (item: RegionTsInfo)
      requires Valid() && m != map[]
      modifies this, items`index
      ensures Valid() && item in old(items) && items == old(items) - {item} && m == old(m) - {item.regionID}
      ensures forall x :: x in old(items) ==> KeyOf(item, sortByEvTime) <= KeyOf(x, sortByEvTime)
    {
      ghost var r :| r in m;
      assert m[r] in items;
      LeastOfAll();
      item := PopRoot();
      m := m - {item.regionID};
    }

    method Remove(regionID: nat) returns (item: RegionTsInfo?)
      requires Valid()
      modifies this, items`index
      ensures Valid()
      ensures if regionID in old(m)
              then item == old(m)[regionID] && m == old(m) - {regionID} && items == old(items) - {item}
              else item == null && m == old(m) && items == old(items)
    {
      if regionID !in m {
        return null;
      }
      item := m[regionID];
      m := m - {regionID};
      var removed := RemoveAt(item.index);
    }
  }
}
