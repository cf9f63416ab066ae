/** The three stages wired as the application wires them. */
module Pipeline {
  import opened Wrappers
  import opened VideoTasks
  import opened Transformers
  import opened VideoInputs
  import opened VideoProcessors
  import opened VideoOutputs

  /** The wiring: the processor reads the input's slots, the output reads
      the processor's, and the three stages share one shutdown flag. */
  ghost predicate Wired(input: VideoInput, processor: VideoProcessor, output: VideoOutput)
    reads input, processor, processor.timeStats, output, processor.task
  {
    && processor.Valid()
    && processor.input == input.task
    && output.input == processor.task
    && processor.task.shuttingDown == input.task.shuttingDown
    && output.task.shuttingDown == input.task.shuttingDown
  }

  /** One pass of each running stage, in pipeline order, while no shutdown is
      requested: a non-empty frame X read by the input, transformed into a
      non-empty frame, reaches the consumer as the transform of X. */
  method FramePassesThrough(input: VideoInput, processor: VideoProcessor, output: VideoOutput,
                            x: Frame, library: (VideoTransformer, Frame) -> Frame, elapsed: int)
    returns (consumed: Option<Frame>)
    requires Wired(input, processor, output)
    requires input.running && processor.running && output.running
    requires !input.task.shuttingDown.raised
    requires !x.Empty() && !processor.transformer.Transform(x, library).Empty()
    modifies input.task, processor.task, processor.timeStats
    ensures consumed == Some(processor.transformer.Transform(x, library))
  {
    var _ := input.Step(x);
    assert processor.input.Current() == x;
    var _ := processor.Step(library, elapsed);
    var _, c := output.Step();
    consumed := c;
  }
}
