/** The last stage: hands the upstream stage's current frame to a consumer. */
module VideoOutputs {
  import opened Wrappers
  import opened VideoTasks

  /** The consumer the application installs: a player showing frames in a
      named window. */
  datatype VideoConsumer = VideoPlayer(windowName: string)

  datatype VideoConsumerFactory = VideoPlayerFactory(windowName: string)
  {
    /** Create(): a player for the factory's window. */
    function Create(): (c: VideoConsumer)
      ensures c.windowName == windowName
    {
      VideoPlayer(windowName)
    }
  }

  class VideoOutput {
    /** The stage's double buffer (the VideoTask base class); never written. */
    const task: VideoTask
    /** The upstream stage whose current frame is shown. */
    const input: VideoTask
    var consumerFactory: VideoConsumerFactory
    var consumer: VideoConsumer
    var running: bool

    constructor (input: VideoTask, consumerFactory: VideoConsumerFactory, updatePeriodMs: nat,
                 shuttingDown: ShutdownFlag)
      ensures fresh(task) && this.input == input
      ensures task.periodMs == updatePeriodMs && task.shuttingDown == shuttingDown
      ensures task.Current() == EmptyFrame && task.Next() == EmptyFrame
      ensures this.consumerFactory == consumerFactory && consumer == consumerFactory.Create()
      ensures !running
    {
      task := new VideoTask(updatePeriodMs, shuttingDown);
      this.input := input;
      this.consumerFactory := consumerFactory;
      running := false;
      consumer := consumerFactory.Create();
    }

    /** Start(): only sets the running flag. */
    method Start()
      modifies this
      ensures running && consumerFactory == old(consumerFactory) && consumer == old(consumer)
    {
      running := true;
    }

    /** Stop(): only clears the running flag. */
    method Stop()
      modifies this
      ensures !running && consumerFactory == old(consumerFactory) && consumer == old(consumer)
    {
      running := false;
    }

    /** ChangeConsumer(factory): installs the factory and a consumer created
        from it; the stage keeps running or stays stopped. */
    method ChangeConsumer(newConsumerFactory: VideoConsumerFactory)
      modifies this
      ensures consumerFactory == newConsumerFactory && consumer == newConsumerFactory.Create()
      ensures running == old(running)
    {
      consumerFactory := newConsumerFactory;
      consumer := consumerFactory.Create();
    }

    /** GetInputFrame(frame): the upstream current frame (as a value). */
    method GetInputFrame() returns (frame: Frame)
      ensures frame == input.Current()
    {
      frame := input.GetOutputFrame();
    }

    /** One pass of TaskFcn's loop, into a local frame. `continues` is the
        loop guard; `consumed` is the frame handed to the consumer's Consume
        (OutputFrame), which happens exactly when the stage runs and the
        upstream current frame is not empty. Nothing in the model changes. */
    method Step() returns (continues: bool, consumed: Option<Frame>)
      ensures continues == !task.shuttingDown.raised
      ensures consumed.Some? <==> continues && running && !input.Current().Empty()
      ensures consumed.Some? ==> consumed.value == input.Current()
    {
      consumed := None;
      if task.shuttingDown.raised {
        return false, consumed;
      }
      if running {
        var frame := GetInputFrame();
        if !frame.Empty() {
          consumed := Some(frame);
        }
      }
      return true, consumed;
    }
  }
}
