/** The value-level meaning of the timer's binary heap: the two sifting
  * algorithms as recursive functions on sequences, and what they guarantee.
  * Entries are compared by time alone, so ties are possible and are resolved
  * exactly as the comparison order of the program resolves them.
  */
module TimerHeap {

  datatype Entry<T> = Entry(time: nat, item: T)

  // The entry at k is not earlier than its parent.
  ghost predicate UpOk<T>(h: seq<Entry<T>>, k: nat)
    requires k < |h|
  {
    k > 0 ==> h[(k - 1) / 2].time <= h[k].time
  }

  // If k is a child of i, it is not earlier than its grandparent.
  ghost predicate SkipOk<T>(h: seq<Entry<T>>, i: nat, k: nat)
    requires i < |h| && k < |h|
  {
    0 < i && 0 < k && (k - 1) / 2 == i ==> h[(i - 1) / 2].time <= h[k].time
  }

  ghost predicate IsHeap<T>(h: seq<Entry<T>>) {
    forall k: nat | k < |h| :: UpOk(h, k)
  }

  // Heap order holds everywhere except possibly between i and its parent.
  ghost predicate HeapBelow<T>(h: seq<Entry<T>>, i: nat)
    requires i < |h|
  {
    && (forall k: nat | k < |h| && k != i :: UpOk(h, k))
    && (forall k: nat | k < |h| :: SkipOk(h, i, k))
  }

  // Heap order holds everywhere except possibly between i and its children.
  ghost predicate HeapAbove<T>(h: seq<Entry<T>>, i: nat)
    requires i < |h|
  {
    && (forall k: nat | k < |h| && (k == 0 || (k - 1) / 2 != i) :: UpOk(h, k))
    && (forall k: nat | k < |h| :: SkipOk(h, i, k))
  }

  function Swap<T>(h: seq<Entry<T>>, i: nat, j: nat): (r: seq<Entry<T>>)
    requires i < |h| && j < |h|
    ensures |r| == |h|
  {
    h[i := h[j]][j := h[i]]
  }

  lemma SwapKeepsEntries<T>(h: seq<Entry<T>>, i: nat, j: nat)
    requires i < |h| && j < |h|
    ensures multiset(Swap(h, i, j)) == multiset(h)
  {
  }

  function SiftUp<T>(h: seq<Entry<T>>, i: nat): (r: seq<Entry<T>>)
    requires i < |h|
    ensures |r| == |h|
    decreases i
  {
    if i > 0 && h[i].time < h[(i - 1) / 2].time
    then SiftUp(Swap(h, i, (i - 1) / 2), (i - 1) / 2)
    else h
  }

  // The child heap_down compares with: the right one unless it is missing or
  // the left one is strictly earlier.
  function SmallerChild<T>(h: seq<Entry<T>>, i: nat): (c: nat)
    requires 2 * i + 1 < |h|
    ensures i < c < |h| && (c - 1) / 2 == i
    ensures forall k :: 0 < k < |h| && (k - 1) / 2 == i ==> h[c].time <= h[k].time
  {
    if 2 * i + 2 == |h| || h[2 * i + 1].time < h[2 * i + 2].time then 2 * i + 1 else 2 * i + 2
  }

  function SiftDown<T>(h: seq<Entry<T>>, i: nat): (r: seq<Entry<T>>)
    requires i < |h|
    ensures |r| == |h|
    decreases |h| - i
  {
    if 2 * i + 1 < |h| && h[SmallerChild(h, i)].time < h[i].time
    then SiftDown(Swap(h, i, SmallerChild(h, i)), SmallerChild(h, i))
    else h
  }

  lemma {:induction false} SiftUpKeepsEntries<T>(h: seq<Entry<T>>, i: nat)
    requires i < |h|
    ensures multiset(SiftUp(h, i)) == multiset(h)
    decreases i
  {
    if i > 0 && h[i].time < h[(i - 1) / 2].time {
      SwapKeepsEntries(h, i, (i - 1) / 2);
      SiftUpKeepsEntries(Swap(h, i, (i - 1) / 2), (i - 1) / 2);
    }
  }

  lemma {:induction false} SiftDownKeepsEntries<T>(h: seq<Entry<T>>, i: nat)
    requires i < |h|
    ensures multiset(SiftDown(h, i)) == multiset(h)
    decreases |h| - i
  {
    if 2 * i + 1 < |h| && h[SmallerChild(h, i)].time < h[i].time {
      SwapKeepsEntries(h, i, SmallerChild(h, i));
      SiftDownKeepsEntries(Swap(h, i, SmallerChild(h, i)), SmallerChild(h, i));
    }
  }

  lemma SwapWithParent<T>(h: seq<Entry<T>>, i: nat)
    requires 0 < i < |h| && HeapBelow(h, i) && h[i].time < h[(i - 1) / 2].time
    ensures HeapBelow(Swap(h, i, (i - 1) / 2), (i - 1) / 2)
  {
    var p := (i - 1) / 2;
    var s := Swap(h, i, p);
    assert UpOk(h, p);
    forall k: nat | k < |s| && k != p ensures UpOk(s, k) {
      assert k != i ==> UpOk(h, k);
      assert SkipOk(h, i, k);
    }
    forall k: nat | k < |s| ensures SkipOk(s, p, k) {
      assert k != i ==> UpOk(h, k);
    }
  }

  lemma {:induction false} SiftUpRestoresHeap<T>(h: seq<Entry<T>>, i: nat)
    requires i < |h| && HeapBelow(h, i)
    ensures IsHeap(SiftUp(h, i))
    decreases i
  {
    if i > 0 && h[i].time < h[(i - 1) / 2].time {
      SwapWithParent(h, i);
      SiftUpRestoresHeap(Swap(h, i, (i - 1) / 2), (i - 1) / 2);
    }
  }

  lemma SwapWithChild<T>(h: seq<Entry<T>>, i: nat)
    requires 2 * i + 1 < |h| && HeapAbove(h, i) && h[SmallerChild(h, i)].time < h[i].time
    ensures HeapAbove(Swap(h, i, SmallerChild(h, i)), SmallerChild(h, i))
  {
    var c := SmallerChild(h, i);
    var s := Swap(h, i, c);
    forall k: nat | k < |s| && (k == 0 || (k - 1) / 2 != c) ensures UpOk(s, k) {
      assert k == 0 || (k - 1) / 2 != i ==> UpOk(h, k);
      assert SkipOk(h, i, c);
    }
    forall k: nat | k < |s| ensures SkipOk(s, c, k) {
      assert 0 < k && (k - 1) / 2 == c ==> UpOk(h, k);
    }
  }

  lemma {:induction false} SiftDownRestoresHeap<T>(h: seq<Entry<T>>, i: nat)
    requires i < |h| && HeapAbove(h, i)
    ensures IsHeap(SiftDown(h, i))
    decreases |h| - i
  {
    if 2 * i + 1 < |h| {
      var c := SmallerChild(h, i);
      if h[c].time < h[i].time {
        SwapWithChild(h, i);
        SiftDownRestoresHeap(Swap(h, i, c), c);
      } else {
        forall k: nat | k < |h| ensures UpOk(h, k) {
          assert k == 0 || (k - 1) / 2 != i ==> UpOk(h, k);
        }
      }
    } else {
      forall k: nat | k < |h| ensures UpOk(h, k) {
        assert k == 0 || (k - 1) / 2 != i;
      }
    }
  }

  lemma {:induction false} RootIsMinimum<T>(h: seq<Entry<T>>, i: nat)
    requires IsHeap(h) && i < |h|
    ensures h[0].time <= h[i].time
    decreases i
  {
    if i > 0 {
      assert UpOk(h, i);
      RootIsMinimum(h, (i - 1) / 2);
    }
  }

  lemma RootIsMinimumOfAll<T>(h: seq<Entry<T>>)
    requires IsHeap(h)
    ensures forall e | e in h :: h[0].time <= e.time
  {
    forall i | 0 <= i < |h| ensures h[0].time <= h[i].time {
      RootIsMinimum(h, i);
    }
  }

  // The heap after a new entry has been pushed at the end and sifted up.
  function Insert<T>(h: seq<Entry<T>>, e: Entry<T>): (r: seq<Entry<T>>)
    ensures |r| == |h| + 1
  {
    SiftUp(h + [e], |h|)
  }

  lemma InsertSpec<T>(h: seq<Entry<T>>, e: Entry<T>)
    requires IsHeap(h)
    ensures IsHeap(Insert(h, e))
    ensures multiset(Insert(h, e)) == multiset(h) + multiset{e}
  {
    forall k: nat | k < |h| ensures UpOk(h + [e], k) { assert UpOk(h, k); }
    SiftUpKeepsEntries(h + [e], |h|);
    SiftUpRestoresHeap(h + [e], |h|);
  }

  // The entry at i has just replaced one due at removed_time: sift it towards
  // whichever side it violates, or leave it when the times tie.
  function Settled<T>(h: seq<Entry<T>>, i: nat, removed_time: nat): (r: seq<Entry<T>>)
    requires i < |h|
    ensures |r| == |h|
  {
    if h[i].time < removed_time then SiftUp(h, i)
    else if h[i].time == removed_time then h
    else SiftDown(h, i)
  }

  // The heap after the entry at i has been taken out: the last entry fills the hole.
  function RemoveAt<T>(h: seq<Entry<T>>, i: nat): (r: seq<Entry<T>>)
    requires i < |h|
    ensures |r| == |h| - 1
  {
    var filled := h[i := h[|h| - 1]][..|h| - 1];
    if i == |h| - 1 then filled else Settled(filled, i, h[i].time)
  }

  lemma FillKeepsEntries<T>(h: seq<Entry<T>>, i: nat)
    requires i < |h|
    ensures multiset(h[i := h[|h| - 1]][..|h| - 1]) == multiset(h) - multiset{h[i]}
  {
    var n := |h| - 1;
    var s := Swap(h, i, n);
    SwapKeepsEntries(h, i, n);
    assert s == s[..n] + [h[i]];
    assert s[..n] == h[i := h[n]][..n];
  }

  // Replacing entry i by the last one disturbs heap order only around i.
  lemma FillDisturbsOnlyHole<T>(h: seq<Entry<T>>, i: nat)
    requires i < |h| - 1 && IsHeap(h)
    ensures var n := |h| - 1; var filled := h[i := h[n]][..n];
      && (h[n].time <= h[i].time ==> HeapBelow(filled, i))
      && (h[n].time >= h[i].time ==> HeapAbove(filled, i))
      && (i == 0 ==> HeapAbove(filled, i))
  {
    var n := |h| - 1;
    var filled := h[i := h[n]][..n];
    assert UpOk(h, i);
    forall k: nat | k < n
      ensures SkipOk(filled, i, k)
      ensures k != i && (k == 0 || (k - 1) / 2 != i) ==> UpOk(filled, k)
      ensures k == i && (i == 0 || h[n].time >= h[i].time) ==> UpOk(filled, k)
      ensures k != i && h[n].time <= h[i].time ==> UpOk(filled, k)
    {
      assert UpOk(h, k);
    }
  }

  lemma RemoveAtSpec<T>(h: seq<Entry<T>>, i: nat)
    requires i < |h| && IsHeap(h)
    ensures IsHeap(RemoveAt(h, i))
    ensures multiset(RemoveAt(h, i)) == multiset(h) - multiset{h[i]}
  {
    var n := |h| - 1;
    var filled := h[i := h[n]][..n];
    FillKeepsEntries(h, i);
    if i < n {
      FillDisturbsOnlyHole(h, i);
      if h[n].time < h[i].time {
        SiftUpKeepsEntries(filled, i);
        SiftUpRestoresHeap(filled, i);
      } else if h[n].time == h[i].time {
        EitherSideHolds(filled, i);
      } else {
        SiftDownKeepsEntries(filled, i);
        SiftDownRestoresHeap(filled, i);
      }
    } else {
      forall k: nat | k < n ensures UpOk(filled, k) { assert UpOk(h, k); }
    }
  }

  lemma EitherSideHolds<T>(h: seq<Entry<T>>, i: nat)
    requires i < |h| && HeapBelow(h, i) && HeapAbove(h, i)
    ensures IsHeap(h)
  {
    forall k: nat | k < |h| ensures UpOk(h, k) {
      assert k != i ==> UpOk(h, k);
      assert i == 0 || (i - 1) / 2 != i;
    }
  }

  // PopTimeout always sifts down from the root, also when the times tie.
  function PopMin<T>(h: seq<Entry<T>>): (r: seq<Entry<T>>)
    requires |h| > 0
    ensures |r| == |h| - 1
  {
    var filled := h[0 := h[|h| - 1]][..|h| - 1];
    if |filled| > 0 then SiftDown(filled, 0) else filled
  }

  lemma PopMinSpec<T>(h: seq<Entry<T>>)
    requires |h| > 0 && IsHeap(h)
    ensures IsHeap(PopMin(h))
    ensures multiset(PopMin(h)) == multiset(h) - multiset{h[0]}
  {
    var filled := h[0 := h[|h| - 1]][..|h| - 1];
    FillKeepsEntries(h, 0);
    if |filled| > 0 {
      FillDisturbsOnlyHole(h, 0);
      SiftDownKeepsEntries(filled, 0);
      SiftDownRestoresHeap(filled, 0);
    }
  }

  // Popping until nothing is left.
  function Drain<T>(h: seq<Entry<T>>): (r: seq<Entry<T>>)
    ensures |r| == |h|
    decreases |h|
  {
    if h == [] then [] else [h[0]] + Drain(PopMin(h))
  }

  ghost predicate SortedByTime<T>(s: seq<Entry<T>>) {
    forall i, j :: 0 <= i < j < |s| ==> s[i].time <= s[j].time
  }

  /** Repeated popping is a sort: it yields every stored timer once, earliest first. */
  lemma {:induction false} DrainSorts<T>(h: seq<Entry<T>>)
    requires IsHeap(h)
    ensures SortedByTime(Drain(h))
    ensures multiset(Drain(h)) == multiset(h)
    decreases |h|
  {
    hide IsHeap, PopMin;
    if h != [] {
      var rest := Drain(PopMin(h));
      PopMinSpec(h);
      RootIsMinimumOfAll(h);
      DrainSorts(PopMin(h));
      assert h[0] in multiset(h);
      forall j | 0 <= j < |rest| ensures h[0].time <= rest[j].time {
        assert rest[j] in multiset(rest);
        assert rest[j] in multiset(h);
      }
    }
  }
}
