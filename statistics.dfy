/** The rolling statistics window that the processing stage keeps for its
    per-frame timing (include/util/statistics.h).

    The window is a deque: new samples go in at the front and, once the window
    holds `maxSize` samples, the sample at the back (the oldest) is evicted.
    The queue keeps a running sum and sum of squares, and two priority queues
    for the maximum and the minimum. A priority queue is modelled by its
    elements in priority order, so its `top()` is element 0 and `pop()` drops
    element 0. Samples are integers, so the running sums are exact. */
module RollingStatistics {
  import opened Sums

  /** Statistics<T>. `Unset` is what GetStatistics returns for an empty window:
      the source returns a default-initialised struct whose fields are never
      assigned. The exact standard deviation (a square root) is not modelled. */
  datatype Statistics =
    | Unset
    | Snapshot(minimum: int, maximum: int, average: real, variance: real)

  /** A max-heap's contents in priority order: each element is at least the next. */
  predicate NonIncreasing(h: seq<int>)
  {
    |h| <= 1 || (h[0] >= h[1] && NonIncreasing(h[1..]))
  }

  /** A min-heap's contents in priority order: each element is at most the next. */
  predicate NonDecreasing(h: seq<int>)
  {
    |h| <= 1 || (h[0] <= h[1] && NonDecreasing(h[1..]))
  }

  /** `push` on a max-heap (std::priority_queue<T>): the new top is the larger
      of the old top and `v`. */
  function InsertMax(h: seq<int>, v: int): (r: seq<int>)
    ensures |r| == |h| + 1
    ensures r[0] == if h != [] && h[0] > v then h[0] else v
  {
    if h == [] || h[0] <= v then [v] + h else [h[0]] + InsertMax(h[1..], v)
  }

  /** `push` on a min-heap (std::priority_queue<T, std::vector<T>, std::greater<T>>):
      the new top is the smaller of the old top and `v`. */
  function InsertMin(h: seq<int>, v: int): (r: seq<int>)
    ensures |r| == |h| + 1
    ensures r[0] == if h != [] && h[0] < v then h[0] else v
  {
    if h == [] || h[0] >= v then [v] + h else [h[0]] + InsertMin(h[1..], v)
  }

  /** InsertMax keeps a max-heap in priority order and adds exactly `v`. */
  lemma {:induction false} InsertMaxIsPush(h: seq<int>, v: int)
    requires NonIncreasing(h)
    ensures NonIncreasing(InsertMax(h, v))
    ensures multiset(InsertMax(h, v)) == multiset(h) + multiset{v}
  {
    if h != [] && h[0] > v {
      assert h == [h[0]] + h[1..];
      var rest := InsertMax(h[1..], v);
      InsertMaxIsPush(h[1..], v);
      assert ([h[0]] + rest)[1..] == rest;
    }
  }

  /** InsertMin keeps a min-heap in priority order and adds exactly `v`. */
  lemma {:induction false} InsertMinIsPush(h: seq<int>, v: int)
    requires NonDecreasing(h)
    ensures NonDecreasing(InsertMin(h, v))
    ensures multiset(InsertMin(h, v)) == multiset(h) + multiset{v}
  {
    if h != [] && h[0] < v {
      assert h == [h[0]] + h[1..];
      var rest := InsertMin(h[1..], v);
      InsertMinIsPush(h[1..], v);
      assert ([h[0]] + rest)[1..] == rest;
    }
  }

  /** The top of a max-heap is its largest element. */
  lemma {:induction false} MaxHeapTop(h: seq<int>, x: int)
    requires NonIncreasing(h) && x in multiset(h)
    ensures x <= h[0]
  {
    assert h == [h[0]] + h[1..];
    if x != h[0] {
      MaxHeapTop(h[1..], x);
    }
  }

  /** The top of a min-heap is its smallest element. */
  lemma {:induction false} MinHeapTop(h: seq<int>, x: int)
    requires NonDecreasing(h) && x in multiset(h)
    ensures h[0] <= x
  {
    assert h == [h[0]] + h[1..];
    if x != h[0] {
      MinHeapTop(h[1..], x);
    }
  }

  /** The last `n` values of the history `h`, newest first: the window that a
      deque with push-front / pop-back eviction holds after the pushes in `h`. */
  function Recent(h: seq<int>, n: nat): (r: seq<int>)
    ensures |r| == if |h| < n then |h| else n
  {
    if n == 0 || h == [] then [] else [h[|h| - 1]] + Recent(h[..|h| - 1], n - 1)
  }

  /** Element `k` of the window is the `k`-th newest value pushed. */
  lemma {:induction false} RecentAt(h: seq<int>, n: nat, k: nat)
    requires k < |Recent(h, n)|
    ensures Recent(h, n)[k] == h[|h| - 1 - k]
  {
    if k > 0 {
      RecentAt(h[..|h| - 1], n - 1, k - 1);
    }
  }

  /** Pushing `v` onto the history moves the window as Push does: `v` goes in
      front and, when the window was full, its last (oldest) value drops out. */
  lemma {:induction false} RecentPush(h: seq<int>, v: int, n: nat)
    requires n >= 1
    ensures var w := Recent(h, n);
            Recent(h + [v], n) == if |w| < n then [v] + w else [v] + w[..n - 1]
  {
    assert (h + [v])[..|h|] == h;
    var a, b := Recent(h, n - 1), Recent(h, n);
    if |b| < n {
      assert |a| == |b|;
      forall k | 0 <= k < |a| ensures a[k] == b[k] {
        RecentAt(h, n - 1, k);
        RecentAt(h, n, k);
      }
    } else {
      assert |a| == n - 1;
      forall k | 0 <= k < |a| ensures a[k] == b[..n - 1][k] {
        RecentAt(h, n - 1, k);
        RecentAt(h, n, k);
      }
    }
  }

  /** The deque after Push(v) on a window of capacity `n`: when full, the back
      (oldest) sample is dropped; `v` goes in at the front. */
  function PushFront(w: seq<int>, n: nat, v: int): seq<int>
  {
    if |w| >= n && w != [] then [v] + w[..|w| - 1] else [v] + w
  }

  /** A heap after Push(v): when the window was full, the heap's own top is
      popped first, whatever sample was evicted from the window. */
  function PopIfFull(heap: seq<int>, full: bool): seq<int>
  {
    if full && heap != [] then heap[1..] else heap
  }

  /** The invariant of StatisticsQueue over its field values and the ghost history `h`. */
  ghost predicate Consistent(h: seq<int>, n: nat, w: seq<int>, maxHeap: seq<int>, minHeap: seq<int>,
                             sum: int, sumSquared: int, size: nat)
  {
    && w == Recent(h, n)
    && size == |w|
    && sum == Sum(w)
    && sumSquared == SumOfSquares(w)
    && |maxHeap| == |w| && |minHeap| == |w|
    && NonIncreasing(maxHeap) && NonDecreasing(minHeap)
       // until the first eviction the heaps hold exactly the window's samples
    && (|h| <= n ==> multiset(maxHeap) == multiset(w) && multiset(minHeap) == multiset(w))
  }

  /** Push keeps the window the newest `n` samples. */
  lemma PushKeepsWindow(h: seq<int>, n: nat, w: seq<int>, v: int, w': seq<int>)
    requires n >= 1 && w == Recent(h, n) && w' == PushFront(w, n, v)
    ensures w' == Recent(h + [v], n)
  {
    RecentPush(h, v, n);
  }

  /** Push keeps the running sums exact: the evicted sample leaves them and
      the new one enters. */
  lemma PushKeepsSums(w: seq<int>, n: nat, v: int, sum: int, sumSquared: int,
                      w': seq<int>, sum': int, sumSquared': int)
    requires n >= 1 && sum == Sum(w) && sumSquared == SumOfSquares(w) && w' == PushFront(w, n, v)
    requires var oldest := if |w| >= n then w[|w| - 1] else 0;
             sum' == sum - oldest + v && sumSquared' == sumSquared - Square(oldest) + Square(v)
    ensures sum' == Sum(w') && sumSquared' == SumOfSquares(w')
  {
    if |w| >= n {
      assert w'[1..] == w[..|w| - 1];
      SumsDropLast(w);
    } else {
      assert w'[1..] == w;
    }
  }

  /** Push keeps the max-heap in priority order and as large as the window;
      the heap loses its popped top (if any) and gains `v`. */
  lemma PushKeepsMaxHeapShape(w: seq<int>, n: nat, v: int, heap: seq<int>, w': seq<int>, heap': seq<int>)
    requires |heap| == |w| && NonIncreasing(heap)
    requires w' == PushFront(w, n, v) && heap' == InsertMax(PopIfFull(heap, |w| >= n), v)
    ensures |heap'| == |w'| && NonIncreasing(heap')
    ensures multiset(heap') == multiset(PopIfFull(heap, |w| >= n)) + multiset{v}
  {
    InsertMaxIsPush(PopIfFull(heap, |w| >= n), v);
  }

  /** Push keeps the min-heap in priority order and as large as the window;
      the heap loses its popped top (if any) and gains `v`. */
  lemma PushKeepsMinHeapShape(w: seq<int>, n: nat, v: int, heap: seq<int>, w': seq<int>, heap': seq<int>)
    requires |heap| == |w| && NonDecreasing(heap)
    requires w' == PushFront(w, n, v) && heap' == InsertMin(PopIfFull(heap, |w| >= n), v)
    ensures |heap'| == |w'| && NonDecreasing(heap')
    ensures multiset(heap') == multiset(PopIfFull(heap, |w| >= n)) + multiset{v}
  {
    InsertMinIsPush(PopIfFull(heap, |w| >= n), v);
  }

  /** Until the first eviction, Push keeps a heap equal to the window as a
      multiset. `heap'` is the heap after the push of `v`. */
  lemma PushKeepsHeap(h: seq<int>, n: nat, w: seq<int>, heap: seq<int>, v: int, w': seq<int>, heap': seq<int>)
    requires n >= 1 && w == Recent(h, n) && w' == PushFront(w, n, v)
    requires |h| <= n ==> multiset(heap) == multiset(w)
    requires multiset(heap') == multiset(PopIfFull(heap, |w| >= n)) + multiset{v}
    ensures |h + [v]| <= n ==> multiset(heap') == multiset(w')
  {
    if |h| + 1 <= n {
      assert w' == [v] + w;
    }
  }

  /** Push(v), on the field values: every part of the invariant is kept. The
      primed parameters are the fields after the push. */
  lemma PushKeepsConsistent(h: seq<int>, n: nat, w: seq<int>, maxHeap: seq<int>, minHeap: seq<int>,
                            sum: int, sumSquared: int, size: nat, v: int,
                            w': seq<int>, maxHeap': seq<int>, minHeap': seq<int>,
                            sum': int, sumSquared': int, size': nat)
    requires n >= 1 && Consistent(h, n, w, maxHeap, minHeap, sum, sumSquared, size)
    requires w' == PushFront(w, n, v) && size' == |w'|
    requires maxHeap' == InsertMax(PopIfFull(maxHeap, |w| >= n), v)
    requires minHeap' == InsertMin(PopIfFull(minHeap, |w| >= n), v)
    requires var oldest := if |w| >= n then w[|w| - 1] else 0;
             sum' == sum - oldest + v && sumSquared' == sumSquared - Square(oldest) + Square(v)
    ensures Consistent(h + [v], n, w', maxHeap', minHeap', sum', sumSquared', size')
  {
    PushKeepsWindow(h, n, w, v, w');
    PushKeepsSums(w, n, v, sum, sumSquared, w', sum', sumSquared');
    PushKeepsMaxHeapShape(w, n, v, maxHeap, w', maxHeap');
    PushKeepsMinHeapShape(w, n, v, minHeap, w', minHeap');
    PushKeepsHeap(h, n, w, maxHeap, v, w', maxHeap');
    PushKeepsHeap(h, n, w, minHeap, v, w', minHeap');
  }

  /** Heaps holding exactly the window's samples have the window's minimum and
      maximum on top. */
  lemma HeapTopsAreExtremes(w: seq<int>, maxHeap: seq<int>, minHeap: seq<int>)
    requires w != [] && NonIncreasing(maxHeap) && NonDecreasing(minHeap)
    requires multiset(maxHeap) == multiset(w) && multiset(minHeap) == multiset(w)
    ensures minHeap[0] in w && maxHeap[0] in w
    ensures forall x :: x in w ==> minHeap[0] <= x <= maxHeap[0]
  {
    assert maxHeap[0] in multiset(maxHeap) && minHeap[0] in multiset(minHeap);
    forall x | x in w ensures minHeap[0] <= x <= maxHeap[0] {
      assert x in multiset(w);
      MaxHeapTop(maxHeap, x);
      MinHeapTop(minHeap, x);
    }
  }

  class StatisticsQueue {
    const maxSize: nat
    /** The deque; `window[0]` is its front, the newest sample. */
    var window: seq<int>
    /** The max-heap in priority order; `maxHeap[0]` is its top. */
    var maxHeap: seq<int>
    /** The min-heap in priority order; `minHeap[0]` is its top. */
    var minHeap: seq<int>
    var sum: int
    var sumSquared: int
    var size: nat
    /** Every sample ever pushed, oldest first. */
    ghost var pushed: seq<int>

    ghost predicate Valid()
      reads this
    {
      Consistent(pushed, maxSize, window, maxHeap, minHeap, sum, sumSquared, size)
    }

    constructor (maxSize: nat)
      ensures Valid()
      ensures this.maxSize == maxSize && pushed == []
      ensures window == [] && maxHeap == [] && minHeap == [] && size == 0
    {
      this.maxSize := maxSize;
      window, maxHeap, minHeap := [], [], [];
      sum, sumSquared, size := 0, 0, 0;
      pushed := [];
    }

    /** Push(value). A capacity of zero is excluded: the first push would read
        the back of an empty deque. */
    method Push(value: int)
      requires Valid() && maxSize >= 1
      modifies this
      ensures Valid()
      ensures pushed == old(pushed) + [value]
      // the window is the newest maxSize samples, newest first
      ensures window == Recent(pushed, maxSize)
      ensures window == PushFront(old(window), maxSize, value)
      // an eviction pops each heap's own top, not the evicted sample
      ensures maxHeap == InsertMax(PopIfFull(old(maxHeap), |old(window)| >= maxSize), value)
      ensures minHeap == InsertMin(PopIfFull(old(minHeap), |old(window)| >= maxSize), value)
    {
      if |window| >= maxSize {
        EvictOldest();
      }
      Insert(value);
      pushed := pushed + [value];
      PushKeepsConsistent(old(pushed), maxSize, old(window), old(maxHeap), old(minHeap),
                          old(sum), old(sumSquared), old(size), value,
                          window, maxHeap, minHeap, sum, sumSquared, size);
    }

    /** The eviction half of Push: the deque's back leaves, and each heap pops
        its own top. */
    method EvictOldest()
      requires window != [] && |maxHeap| >= 1 && |minHeap| >= 1
      modifies this
      ensures window == old(window[..|window| - 1])
      ensures maxHeap == old(maxHeap[1..]) && minHeap == old(minHeap[1..])
      ensures sum == old(sum - window[|window| - 1])
      ensures sumSquared == old(sumSquared - Square(window[|window| - 1]))
      ensures size == old(size) && pushed == old(pushed)
    {
      var oldest := window[|window| - 1];
      window := window[..|window| - 1];
      maxHeap := maxHeap[1..];
      minHeap := minHeap[1..];
      sum := sum - oldest;
      sumSquared := sumSquared - Square(oldest);
    }

    /** The insertion half of Push: `value` goes to the deque's front and into
        both heaps, and the size and sums are updated. */
    method Insert(value: int)
      modifies this
      ensures window == [value] + old(window) && size == |window|
      ensures maxHeap == InsertMax(old(maxHeap), value) && minHeap == InsertMin(old(minHeap), value)
      ensures sum == old(sum) + value && sumSquared == old(sumSquared) + Square(value)
      ensures pushed == old(pushed)
    {
      window, size := [value] + window, |window| + 1;
      maxHeap, minHeap := InsertMax(maxHeap, value), InsertMin(minHeap, value);
      sum, sumSquared := sum + value, sumSquared + Square(value);
    }

    /** GetStatistics(): reads the queue and changes nothing. */
    method GetStatistics() returns (s: Statistics)
      requires Valid()
      ensures window == [] <==> s == Unset
      ensures window != [] ==>
        && s.Snapshot?
        && s.minimum == minHeap[0] && s.maximum == maxHeap[0]
        && s.average == Mean(window) && s.variance == Variance(window)
      // before anything has been evicted the reported extremes are the window's extremes
      ensures window != [] && |pushed| <= maxSize ==>
        && s.minimum in window && s.maximum in window
        && forall x :: x in window ==> s.minimum <= x <= s.maximum
    {
      if window == [] {
        return Unset;
      }
      var invSize := 1.0 / size as real;
      var average := sum as real * invSize;
      var variance := sumSquared as real * invSize - average * average;
      s := Snapshot(minHeap[0], maxHeap[0], average, variance);
      RunningMoments(window, sum, sumSquared, invSize, average, variance);
      if |pushed| <= maxSize {
        HeapTopsAreExtremes(window, maxHeap, minHeap);
      }
    }
  }

  /** Three pushes into a window of two: 5 is evicted, but the heaps pop 5
      (max) and 1 (min), so the reported minimum is 3 while the window [3, 1]
      holds 1. The reported extremes are not the window's once evictions start. */
  method EvictionSkewsMinimum() returns (reported: int, actual: int)
    ensures reported == 3 && actual == 1
  {
    var q := new StatisticsQueue(2);
    q.Push(5);
    q.Push(1);
    q.Push(3);
    var s := q.GetStatistics();
    assert q.window == [3, 1];
    reported, actual := s.minimum, q.window[1];
  }

  /** A window of three fed 1, 2, 3, 4 in increasing order reports minimum 2 and
      maximum 4: here the popped heap tops happen to be harmless for the result. */
  method IncreasingRun() returns (minimum: int, maximum: int)
    ensures minimum == 2 && maximum == 4
  {
    var q := new StatisticsQueue(3);
    q.Push(1);
    q.Push(2);
    q.Push(3);
    q.Push(4);
    var s := q.GetStatistics();
    minimum, maximum := s.minimum, s.maximum;
  }
}
