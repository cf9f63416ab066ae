/** The second stage: transforms the upstream stage's current frame and times
    each transformation. */
module VideoProcessors {
  import opened VideoTasks
  import opened Transformers
  import RollingStatistics

  /** The capacity of the timing window. */
  const TimeStatsSize := 100

  class VideoProcessor {
    /** The stage's double buffer (the VideoTask base class). */
    const task: VideoTask
    /** The upstream stage whose current frame is processed. */
    const input: VideoTask
    /** Transformation times of the most recent frames. */
    const timeStats: RollingStatistics.StatisticsQueue
    var transformerFactory: VideoTransformerFactory
    var transformer: VideoTransformer
    var running: bool

    ghost predicate Valid()
      reads this, timeStats
    {
      && task != input
      && timeStats.Valid() && timeStats.maxSize == TimeStatsSize
    }

    constructor (input: VideoTask, transformerFactory: VideoTransformerFactory, shuttingDown: ShutdownFlag)
      ensures Valid() && fresh(task) && fresh(timeStats) && this.input == input
      ensures task.periodMs == 0 && task.shuttingDown == shuttingDown
      ensures task.Current() == EmptyFrame && task.Next() == EmptyFrame
      ensures timeStats.pushed == []
      ensures this.transformerFactory == transformerFactory && transformer == transformerFactory.Create()
      ensures !running
    {
      task := new VideoTask(0, shuttingDown);
      timeStats := new RollingStatistics.StatisticsQueue(TimeStatsSize);
      this.input := input;
      this.transformerFactory := transformerFactory;
      running := false;
      transformer := transformerFactory.Create();
    }

    /** Start(): only sets the running flag. */
    method Start()
      modifies this
      ensures running && transformerFactory == old(transformerFactory) && transformer == old(transformer)
    {
      running := true;
    }

    /** Stop(): only clears the running flag. */
    method Stop()
      modifies this
      ensures !running && transformerFactory == old(transformerFactory) && transformer == old(transformer)
    {
      running := false;
    }

    /** ChangeTransformer(factory): installs the factory and a transformer
        created from it; the stage keeps running or stays stopped. */
    method ChangeTransformer(newTransformerFactory: VideoTransformerFactory)
      modifies this
      ensures transformerFactory == newTransformerFactory && transformer == newTransformerFactory.Create()
      ensures running == old(running)
    {
      transformerFactory := newTransformerFactory;
      transformer := transformerFactory.Create();
    }

    /** GetInputFrame(frame): the upstream current frame (as a value); the
        upstream stage is not changed. The wait for its notification is not
        modelled. */
    method GetInputFrame() returns (frame: Frame)
      ensures frame == input.Current()
    {
      frame := input.GetOutputFrame();
    }

    /** ProcessFrame(frame): transforms the frame and pushes the time it took
        (`elapsed`, from the clock) into the timing window. */
    method ProcessFrame(frame: Frame, library: (VideoTransformer, Frame) -> Frame, elapsed: int)
      returns (result: Frame)
      requires Valid()
      modifies timeStats
      ensures Valid()
      ensures result == transformer.Transform(frame, library)
      ensures timeStats.pushed == old(timeStats.pushed) + [elapsed]
      ensures timeStats.window == RollingStatistics.Recent(timeStats.pushed, TimeStatsSize)
      // each heap pops its own top when the window was full, then takes the sample
      ensures timeStats.maxHeap == RollingStatistics.InsertMax(
        RollingStatistics.PopIfFull(old(timeStats.maxHeap), |old(timeStats.window)| >= TimeStatsSize), elapsed)
      ensures timeStats.minHeap == RollingStatistics.InsertMin(
        RollingStatistics.PopIfFull(old(timeStats.minHeap), |old(timeStats.window)| >= TimeStatsSize), elapsed)
    {
      result := transformer.Transform(frame, library);
      timeStats.Push(elapsed);
    }

    /** One pass of TaskFcn's loop. `continues` is the loop guard. While
        running, the upstream current frame X is copied into the next slot;
        if X is not empty it is transformed there, timed and swapped in. */
    method Step(library: (VideoTransformer, Frame) -> Frame, elapsed: int) returns (continues: bool)
      requires Valid()
      modifies task, timeStats
      ensures Valid()
      ensures continues == !task.shuttingDown.raised
      ensures !(continues && running) ==>
        && task.Current() == old(task.Current()) && task.Next() == old(task.Next())
        && unchanged(timeStats)
      ensures continues && running && !old(input.Current()).Empty() ==>
        && task.Current() == transformer.Transform(old(input.Current()), library)
        && task.Next() == old(task.Current())
        && timeStats.pushed == old(timeStats.pushed) + [elapsed]
        && timeStats.maxHeap == RollingStatistics.InsertMax(
             RollingStatistics.PopIfFull(old(timeStats.maxHeap), |old(timeStats.window)| >= TimeStatsSize), elapsed)
        && timeStats.minHeap == RollingStatistics.InsertMin(
             RollingStatistics.PopIfFull(old(timeStats.minHeap), |old(timeStats.window)| >= TimeStatsSize), elapsed)
      ensures continues && running && old(input.Current()).Empty() ==>
        && task.Current() == old(task.Current()) && task.Next() == old(input.Current())
        && unchanged(timeStats)
    {
      if task.shuttingDown.raised {
        task.NotifyListeners();
        return false;
      }
      if running {
        var frame := GetInputFrame();
        task.buffer2 := frame;
        if !frame.Empty() {
          var transformed := ProcessFrame(frame, library, elapsed);
          task.buffer2 := transformed;
          task.SwapBuffers();
          task.NotifyListeners();
        }
      }
      return true;
    }
  }
}
