/** The first stage: reads frames from the current source into its slots. */
module VideoInputs {
  import opened VideoTasks
  import opened VideoSources

  class VideoInput {
    /** The stage's double buffer (the VideoTask base class). */
    const task: VideoTask
    var sourceFactory: VideoSourceFactory
    var source: VideoSource
    var running: bool

    constructor (sourceFactory: VideoSourceFactory, updatePeriodMs: nat, shuttingDown: ShutdownFlag)
      ensures fresh(task) && task.periodMs == updatePeriodMs && task.shuttingDown == shuttingDown
      ensures task.Current() == EmptyFrame && task.Next() == EmptyFrame
      ensures this.sourceFactory == sourceFactory && source == sourceFactory.Create() && !running
    {
      task := new VideoTask(updatePeriodMs, shuttingDown);
      this.sourceFactory := sourceFactory;
      running := false;
      source := sourceFactory.Create();
    }

    /** Start(): opens the source, then runs. `captureOpened` is whether the
        capture opened. */
    method Start(captureOpened: bool)
      modifies this
      ensures source == old(source).Open(captureOpened) && running
      ensures sourceFactory == old(sourceFactory)
    {
      source := source.Open(captureOpened);
      running := true;
    }

    /** Stop(): only clears the running flag. */
    method Stop()
      modifies this
      ensures !running && source == old(source) && sourceFactory == old(sourceFactory)
    {
      running := false;
    }

    /** Shutdown(): closes the source; joining the thread is not modelled. */
    method Shutdown()
      modifies this
      ensures source == old(source).Close()
      ensures running == old(running) && sourceFactory == old(sourceFactory)
    {
      source := source.Close();
    }

    /** ChangeSource(factory): stops, then installs the factory and a source
        freshly created from it, which is not opened. */
    method ChangeSource(newSourceFactory: VideoSourceFactory)
      modifies this
      ensures !running && sourceFactory == newSourceFactory && source == newSourceFactory.Create()
      ensures !source.isOpen
    {
      Stop();
      sourceFactory := newSourceFactory;
      source := sourceFactory.Create();
    }

    /** One pass of TaskFcn's loop. `continues` is the loop guard (the shutdown
        flag is clear); `read` is the frame the source delivers into the next
        slot. A non-empty frame is swapped in as current; an empty one is
        only logged, and stays in the next slot. */
    method Step(read: Frame) returns (continues: bool)
      modifies task
      ensures continues == !task.shuttingDown.raised
      ensures !(continues && running) ==> task.Current() == old(task.Current()) && task.Next() == old(task.Next())
      ensures continues && running && !read.Empty() ==>
        task.Current() == read && task.Next() == old(task.Current())
      ensures continues && running && read.Empty() ==>
        task.Current() == old(task.Current()) && task.Next() == read
    {
      if task.shuttingDown.raised {
        return false;
      }
      if running {
        task.buffer2 := read;
        if !task.Next().Empty() {
          task.SwapBuffers();
          task.NotifyListeners();
        }
        task.Throttle();
      }
      task.NotifyListeners();
      return true;
    }
  }
}
