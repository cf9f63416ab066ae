/** The earlier statistics queue: a bounded FIFO of samples whose statistics
    are recomputed on demand by one pass over the queue. */
module FifoStatistics {
  import opened Wrappers
  import opened Sums

  /** The error Pop and Front raise (std::underflow_error). */
  datatype QueueError = Underflow

  class StatisticsQueue {
    const maxSize: nat
    /** The queue; `queue[0]` is its front, the oldest sample. */
    var queue: seq<int>
    var minimum: int
    var maximum: int
    var average: real
    /** Never initialised by the constructor; meaningful after UpdateStatistics
        on a non-empty queue. */
    var variance: real
    /** Every sample ever pushed, oldest first. */
    ghost var pushed: seq<int>
    /** The samples that have left the queue, oldest first. */
    ghost var removed: seq<int>

    /** The queue holds at most maxSize samples, and they are the newest ones
        pushed, in arrival order. */
    ghost predicate Valid()
      reads this
    {
      && |queue| <= maxSize
      && removed + queue == pushed
    }

    constructor (maxSize: nat)
      ensures Valid()
      ensures this.maxSize == maxSize && queue == [] && pushed == []
      ensures minimum == 0 && maximum == 0 && average == 0.0
    {
      this.maxSize := maxSize;
      queue := [];
      minimum, maximum, average := 0, 0, 0.0;
      pushed, removed := [], [];
    }

    /** Push(value): when full, the front (oldest) sample leaves first. A
        capacity of zero is excluded: the first push would pop an empty queue. */
    method Push(value: int)
      requires Valid() && maxSize >= 1
      modifies this
      ensures Valid()
      ensures pushed == old(pushed) + [value]
      ensures queue == (if |old(queue)| >= maxSize then old(queue)[1..] else old(queue)) + [value]
      ensures minimum == old(minimum) && maximum == old(maximum)
      ensures average == old(average) && variance == old(variance)
    {
      if |queue| >= maxSize {
        removed := removed + [queue[0]];
        queue := queue[1..];
      }
      queue := queue + [value];
      pushed := pushed + [value];
    }

    /** Pop(): removes the front sample, or fails with Underflow on an empty queue. */
    method Pop() returns (r: Result<(), QueueError>)
      requires Valid()
      modifies this
      ensures Valid() && pushed == old(pushed)
      ensures old(queue) == [] <==> r.Failure?
      ensures r.Failure? ==> queue == old(queue)
      ensures r.Success? ==> queue == old(queue)[1..]
      ensures minimum == old(minimum) && maximum == old(maximum)
      ensures average == old(average) && variance == old(variance)
    {
      if queue == [] {
        return Failure(Underflow);
      }
      removed := removed + [queue[0]];
      queue := queue[1..];
      return Success(());
    }

    /** Front(): the oldest sample still queued, or Underflow on an empty queue. */
    method Front() returns (r: Result<int, QueueError>)
      requires Valid()
      ensures queue == [] <==> r.Failure?
      ensures r.Success? ==> r.value == queue[0] && r.value == pushed[|removed|]
    {
      if queue == [] {
        return Failure(Underflow);
      }
      return Success(queue[0]);
    }

    /** Empty(): whether no sample is queued. */
    method Empty() returns (b: bool)
      ensures b <==> queue == []
    {
      return queue == [];
    }

    /** Size(): the number of queued samples. */
    method Size() returns (n: nat)
      requires Valid()
      ensures n == |queue| && n <= maxSize
    {
      return |queue|;
    }

    /** UpdateStatistics(): on an empty queue nothing changes; otherwise one
        pass sets the minimum, maximum, mean and population variance of the
        queued samples. */
    method UpdateStatistics()
      requires Valid()
      modifies this
      ensures Valid()
      ensures queue == old(queue) && pushed == old(pushed) && removed == old(removed)
      ensures old(queue) == [] ==>
        && minimum == old(minimum) && maximum == old(maximum)
        && average == old(average) && variance == old(variance)
      ensures queue != [] ==>
        && minimum in queue && maximum in queue
        && (forall k :: 0 <= k < |queue| ==> minimum <= queue[k] <= maximum)
        && average == Mean(queue) && variance == Variance(queue)
    {
      if queue == [] {
        return;
      }
      var lo, hi := queue[0], queue[0];
      var sum, sumSquares := 0, 0;
      var i := 0;
      while i < |queue|
        modifies {}
        invariant 0 <= i <= |queue|
        invariant lo in queue && hi in queue
        invariant forall k :: 0 <= k < i ==> lo <= queue[k] <= hi
        invariant lo <= queue[0] <= hi
        invariant sum == Sum(queue[..i]) && sumSquares == SumOfSquares(queue[..i])
      {
        var value := queue[i];
        if value < lo {
          lo := value;
        }
        if value > hi {
          hi := value;
        }
        SumsAppend(queue[..i], value);
        assert queue[..i + 1] == queue[..i] + [value];
        sum := sum + value;
        sumSquares := sumSquares + Square(value);
        i := i + 1;
      }
      assert queue[..i] == queue;
      var invSize := 1.0 / |queue| as real;
      var mean := sum as real * invSize;
      var meanSquared := mean * mean;
      var v := sumSquares as real * invSize - meanSquared;
      RunningMoments(queue, sum, sumSquares, invSize, mean, v);
      minimum, maximum, average, variance := lo, hi, mean, v;
    }
  }

  /** A capacity-two queue fed 5, 1, 3 holds [1, 3]; its statistics are those
      of the two samples queued. */
  method EvictsOldest() returns (minimum: int, maximum: int, average: real)
    ensures minimum == 1 && maximum == 3 && average == 2.0
  {
    var q := new StatisticsQueue(2);
    q.Push(5);
    q.Push(1);
    q.Push(3);
    q.UpdateStatistics();
    assert q.queue == [1, 3];
    assert q.queue[1..] == [3] && [3][1..] == [];
    assert Sum(q.queue) == 4;
    assert q.average == 4.0 / 2.0;
    minimum, maximum, average := q.minimum, q.maximum, q.average;
  }
}
