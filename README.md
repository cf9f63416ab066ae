# spp — a verified model of the sensory processing pipeline

spp is a three-stage video pipeline: an input stage reads frames from a
webcam or a video file, a processing stage transforms them (a colorspace
conversion or a Haar cascade detector) and times each transformation, and an
output stage hands them to a video player. Each stage runs its own worker loop
over a double buffer, and an application loop reads typed commands that start,
pause and stop the stages and swap their strategies.

This project models the sequential logic under the threads and OpenCV calls,
and proves properties about it:

- `sums.dfy` (`Sums`): sums, sums of squares, mean and population variance of
  a sample sequence. The main lemma proves that the running-sum formula both
  statistics queues use, `sum_squared / n - average^2`, is the population
  variance.
- `statistics.dfy` (`RollingStatistics`): the rolling window of
  `include/util/statistics.h`, as a class. It has a deque window (push at the
  front, evict at the back), running sums and two priority queues, each kept
  as a sequence in priority order.
  - `Push` keeps an invariant: the window is the newest `max_size` samples,
    the sums are exact, and both heaps are ordered and as large as the window.
  - `GetStatistics` reports the window's mean and variance.
  - The reported minimum and maximum are the heap tops. They equal the
    window's extremes only until the first eviction, because an eviction pops
    each heap's own top rather than the evicted sample.
    `EvictionSkewsMinimum` exhibits a window whose reported minimum is not its
    minimum.
- `statistics_queue.dfy` (`FifoStatistics`): the older bounded FIFO of
  `include/statistics_queue.h`. `Pop` and `Front` fail on an empty queue.
  `UpdateStatistics` is a one-pass loop proved to compute the minimum,
  maximum, mean and population variance.
- `video_task.dfy` (`VideoTasks`): the double buffer every stage inherits. The
  current and next slots are references bound to `buffer1_` and `buffer2_`,
  so a swap exchanges the slots' contents.
- `video_source.dfy`, `colorspace_transformer.dfy`: the strategy factories,
  which are total dispatches on their enumerations.
- `video_input.dfy`, `video_processor.dfy`, `video_output.dfy`: the three
  stages as classes. Each has its running flag, its strategy, and one
  iteration of its worker loop as a `Step` method.
- `pipeline.dfy`: the stages wired as the application wires them. A non-empty
  frame X read by the input reaches the consumer as the transform of X.
- `commands.dfy` (`Commands`): the space-splitting tokenizer (a loop, proved
  against a recursive definition, with a split/join round trip) and the
  command parser as a pure function to a `Command` datatype.
- `app.dfy` (`Application`): the application, which carries out parsed
  commands on the stages.
- `ui.dfy` (`UserInterface`): the small stand-alone text interface.

Frames are abstract pixel sequences; a frame is empty when it has no pixels.
OpenCV transformations are a function parameter `library`. Whether a capture
opens, the frame a source reads, the time a transformation takes and the line
typed are all parameters of the methods that use them. Statistics samples are
integers, so the running sums are exact; means and variances are `real`.

## Model

| member | source | states |
|---|---|---|
| Sums.SumsDropLast | include/util/statistics.h:38-40 | removing the last sample takes it out of the sum and its square out of the sum of squares |
| Sums.SumsAppend | include/statistics_queue.h:72-81 | appending a sample adds it to the sum and its square to the sum of squares |
| Sums.ScaledSumFactors | include/util/statistics.h:58-62 | a constant factored out of a sum: the sum of c*x is c times the sum |
| Sums.DeviationsSplit | include/util/statistics.h:58-62 | the sum of squared deviations from mu expands into sum of squares, twice mu times the sum, and n*mu^2 |
| Sums.SquaredDeviationsExpand | include/util/statistics.h:58-62 | the same expansion, in terms of the sample sum rather than a scaled sum |
| Sums.RunningVarianceIsPopulationVariance | include/util/statistics.h:58-62 | for the mean of the samples, sum of squares / n minus mean^2 equals the population variance (mean squared deviation) |
| Sums.RunningMoments | include/util/statistics.h:58-62 | the average and variance computed from the running sums with inv_size = 1/n are the mean and the population variance of the samples |
| RollingStatistics.InsertMax | include/util/statistics.h:43 | a max-heap push grows the heap by one; the new top is the larger of the old top and the value |
| RollingStatistics.InsertMin | include/util/statistics.h:44 | a min-heap push grows the heap by one; the new top is the smaller of the old top and the value |
| RollingStatistics.InsertMaxIsPush | include/util/statistics.h:43 | a max-heap push keeps priority order and adds exactly the value to the heap's multiset |
| RollingStatistics.InsertMinIsPush | include/util/statistics.h:44 | a min-heap push keeps priority order and adds exactly the value to the heap's multiset |
| RollingStatistics.MaxHeapTop | include/util/statistics.h:65 | the top of an ordered max-heap is at least every element it holds |
| RollingStatistics.MinHeapTop | include/util/statistics.h:64 | the top of an ordered min-heap is at most every element it holds |
| RollingStatistics.Recent | include/util/statistics.h:33-35 | the window holds min(pushes, max_size) samples |
| RollingStatistics.RecentAt | include/util/statistics.h:42 | element k of the window is the k-th newest sample pushed |
| RollingStatistics.RecentPush | include/util/statistics.h:33-35 | pushing a sample puts it at the front of the window and, when the window was full, drops the back (oldest) sample |
| RollingStatistics.PushKeepsWindow | include/util/statistics.h:33-35 | after a push the deque is the newest max_size samples, newest first |
| RollingStatistics.PushKeepsSums | include/util/statistics.h:38-40 | the incremental updates of sum_ and sum_squared_ keep them the exact sums over the window |
| RollingStatistics.PushKeepsMaxHeapShape | include/util/statistics.h:36 | after popping its top on eviction and pushing the value, the max-heap is ordered and as large as the window |
| RollingStatistics.PushKeepsMinHeapShape | include/util/statistics.h:37 | after popping its top on eviction and pushing the value, the min-heap is ordered and as large as the window |
| RollingStatistics.PushKeepsHeap | include/util/statistics.h:43-44 | until the first eviction each heap holds exactly the window's samples |
| RollingStatistics.PushKeepsConsistent | include/util/statistics.h:31-48 | Push keeps the whole invariant: window, size_, sums, both heaps' order and size, and heap contents before eviction |
| RollingStatistics.HeapTopsAreExtremes | include/util/statistics.h:64-65 | heaps holding exactly the window's samples have the window's minimum and maximum on top |
| RollingStatistics.StatisticsQueue.constructor | include/util/statistics.h:28-29 | a new queue is empty with zero sums and size, and satisfies the invariant |
| RollingStatistics.StatisticsQueue.Push | include/util/statistics.h:31-48 | keeps the invariant; the window becomes the newest max_size samples; each heap pops its own top when full, then takes the value |
| RollingStatistics.StatisticsQueue.EvictOldest | include/util/statistics.h:33-41 | the back sample leaves the deque and the sums; each heap loses its top |
| RollingStatistics.StatisticsQueue.Insert | include/util/statistics.h:42-47 | the value goes to the deque's front and into both heaps; size_ is the deque length; the sums gain the value and its square |
| RollingStatistics.StatisticsQueue.GetStatistics | include/util/statistics.h:50-70 | empty window iff no statistics; otherwise minimum/maximum are the heap tops and average/variance the window's mean and population variance; before any eviction the extremes are the window's |
| RollingStatistics.EvictionSkewsMinimum | include/util/statistics.h:36-37 | pushing 5, 1, 3 into a window of two reports minimum 3 while the window holds 1 |
| RollingStatistics.IncreasingRun | include/util/statistics.h:31-48 | pushing 1, 2, 3, 4 into a window of three reports minimum 2 and maximum 4 |
| FifoStatistics.StatisticsQueue.constructor | include/statistics_queue.h:18-23 | a new queue is empty, with minimum, maximum and average 0 |
| FifoStatistics.StatisticsQueue.Push | include/statistics_queue.h:25-31 | when full the front (oldest) sample leaves before the value is appended; the queue stays within max_size and is the newest samples in order |
| FifoStatistics.StatisticsQueue.Pop | include/statistics_queue.h:33-40 | fails with underflow exactly on an empty queue, which is then unchanged; otherwise removes exactly the front sample |
| FifoStatistics.StatisticsQueue.Front | include/statistics_queue.h:42-48 | fails with underflow exactly on an empty queue; otherwise returns the oldest sample still queued, changing nothing |
| FifoStatistics.StatisticsQueue.Empty | include/statistics_queue.h:50-53 | true exactly when no sample is queued |
| FifoStatistics.StatisticsQueue.Size | include/statistics_queue.h:55-58 | the number of queued samples, never more than max_size |
| FifoStatistics.StatisticsQueue.UpdateStatistics | include/statistics_queue.h:60-88 | keeps the queue, its history and its invariant; an empty queue changes no statistic; otherwise minimum and maximum are queue elements bounding every element, and average and variance are the mean and population variance |
| FifoStatistics.EvictsOldest | include/statistics_queue.h:25-31 | pushing 5, 1, 3 into a queue of two gives minimum 1, maximum 3, average 2 |
| VideoTasks.VideoTask.constructor | src/video_task.cc:12-18 | a new stage's current slot is buffer1_ and its next slot buffer2_, both empty |
| VideoTasks.VideoTask.GetOutputFrame | src/video_task.cc:26 | the frame returned is the current slot; neither slot changes |
| VideoTasks.VideoTask.SwapBuffers | src/video_task.cc:28-31 | the current slot takes the old next contents and the next slot the old current contents |
| VideoTasks.VideoTask.NotifyListeners | src/video_task.cc:33 | neither slot changes |
| VideoTasks.VideoTask.Throttle | src/video_task.cc:35-38 | neither slot changes |
| VideoTasks.SwapTwiceRestores | src/video_task.cc:30 | two swaps give back both slots as they were |
| VideoSources.VideoSource.Open | src/video/input/video_source.cc:15-47 | an open webcam is left alone; otherwise the source is open exactly when the capture opened; type and filename are kept |
| VideoSources.VideoSource.Close | src/video/input/video_source.cc:25-58 | the source is closed; type and filename are kept |
| VideoSources.VideoSourceFactory.Create | include/video/input/video_source.h:51-67 | a new unopened source of the factory's type; a file source carries the factory's filename (empty for the one-argument constructor) |
| VideoSources.CreateDeterminesFactory | include/video/input/video_source.h:58-67 | two factories creating the same source have the same type, and the same filename when they make files |
| Transformers.VideoTransformer.Transform | src/video/processing/colorspace_transformer.cc:10-22 | the bypass transformer leaves the frame as it is; the others apply their library conversion |
| Transformers.ColorspaceTransformer | include/video/processing/colorspace_transformer.h:38-45 | the transformer chosen for a colorspace converts to that colorspace |
| Transformers.ColorspaceTransformerFactory.constructor | include/video/processing/colorspace_transformer.h:36-37 | the factory stores its colorspace, BYPASS by default |
| Transformers.ColorspaceTransformerFactory.Create | include/video/processing/colorspace_transformer.h:38-49 | the transformer created converts to the factory's colorspace; the factory is not changed |
| Transformers.ColorspaceTransformerFactory.SetColorspace | include/video/processing/colorspace_transformer.h:50 | only the colorspace changes, and the next Create converts to it |
| Transformers.VideoTransformerFactory.Create | include/video/processing/haar_cascade_classifier.h:26-28 | a colorspace factory creates its colorspace's transformer; a Haar factory creates a classifier for its cascade |
| Transformers.CreateIsInjective | include/video/processing/colorspace_transformer.h:38-49 | two colorspace factories create the same transformer iff their colorspaces agree; a BYPASS factory's transformer leaves every frame unchanged |
| VideoInputs.VideoInput.constructor | src/video/input/video_input.cc:17-26 | a new input is not running, holds its factory and the source the factory creates, and has empty slots |
| VideoInputs.VideoInput.Start | src/video/input/video_input.cc:32-35 | the source is opened, then the stage runs; the factory is kept |
| VideoInputs.VideoInput.Stop | src/video/input/video_input.cc:37 | only the running flag is cleared |
| VideoInputs.VideoInput.Shutdown | src/video/input/video_input.cc:39-42 | the source is closed; flag and factory are kept |
| VideoInputs.VideoInput.ChangeSource | src/video/input/video_input.cc:46-51 | the stage is stopped and holds the new factory and an unopened source freshly created from it |
| VideoInputs.VideoInput.Step | src/video/input/video_input.cc:56-70 | continues iff no shutdown; while running a non-empty read frame becomes current and the old current moves to next; an empty one stays in next; otherwise no slot changes |
| VideoProcessors.VideoProcessor.constructor | src/video/video_processor.cc:17-27 | a new processor is not running, has period 0, an empty timing window of capacity 100, and the transformer its factory creates |
| VideoProcessors.VideoProcessor.Start | src/video/video_processor.cc:31 | only the running flag is set |
| VideoProcessors.VideoProcessor.Stop | src/video/video_processor.cc:33 | only the running flag is cleared |
| VideoProcessors.VideoProcessor.ChangeTransformer | src/video/video_processor.cc:35-39 | installs the factory and the transformer it creates; the running flag is kept |
| VideoProcessors.VideoProcessor.GetInputFrame | src/video/video_processor.cc:41-45 | the frame returned is the upstream current slot; the upstream stage is not changed |
| VideoProcessors.VideoProcessor.ProcessFrame | src/video/video_processor.cc:47-56 | the result is the transform of the frame; exactly one timing sample enters the window, and each timing heap pops its own top when the window was full, then takes the sample |
| VideoProcessors.VideoProcessor.Step | src/video/video_processor.cc:58-75 | continues iff no shutdown; while running a non-empty upstream frame X makes transform(X) current and pushes one timing sample (window and heaps as in Push); an empty one is copied to next with no transform, swap or change to the timing queue; otherwise neither slot nor the timing queue changes |
| VideoOutputs.VideoConsumerFactory.Create | include/video_player.h:18-28 | the player created shows frames in the factory's window |
| VideoOutputs.VideoOutput.constructor | src/video/video_output.cc:17-28 | a new output is not running and holds the consumer its factory creates |
| VideoOutputs.VideoOutput.Start | src/video/video_output.cc:32 | only the running flag is set |
| VideoOutputs.VideoOutput.Stop | src/video/video_output.cc:34 | only the running flag is cleared |
| VideoOutputs.VideoOutput.ChangeConsumer | src/video/video_output.cc:36-40 | installs the factory and the consumer it creates; the running flag is kept |
| VideoOutputs.VideoOutput.GetInputFrame | src/video/video_output.cc:42-46 | the frame returned is the upstream current slot |
| VideoOutputs.VideoOutput.Step | src/video/video_output.cc:50-64 | continues iff no shutdown; a frame is consumed exactly when running and the upstream current frame is non-empty, and it is that frame; nothing is written |
| Pipeline.FramePassesThrough | src/video/video_output.cc:50-64 | with all stages running, one input, processor and output pass hands the consumer transform(X) for a non-empty X whose transform is non-empty |
| Commands.Tokens | src/app/app.cc:77-86 | no token holds a space |
| Commands.PiecesHaveNoSpace | src/app/app.cc:83-85 | no piece of a line split at spaces holds a space |
| Commands.JoinPieces | src/app/app.cc:81-85 | joining the pieces of a line with single spaces gives back the line |
| Commands.PiecesOfWord | src/app/app.cc:83-85 | a word without spaces is a single piece |
| Commands.PiecesOfCons | src/app/app.cc:83-85 | a word and a space split off the front of a line as one piece |
| Commands.PiecesJoin | src/app/app.cc:81-85 | splitting joined space-free pieces gives back the pieces |
| Commands.TokensOfCons | src/app/app.cc:83-85 | a word followed by a space is the first token, followed by the tokens of the rest |
| Commands.TokensStep | src/app/app.cc:83-85 | one successful getline at a position yields the characters up to the next space and resumes after it |
| Commands.TokensAdvance | src/app/app.cc:83-85 | the tokenizer loop's step keeps tokens-so-far plus tokens-of-rest equal to the tokens of the line |
| Commands.ScanToken | src/app/app.cc:83 | the scan stops at the next space or the end of the line, passing no space |
| Commands.GetTokenizedInput | src/app/app.cc:77-86 | the previous tokens are discarded and the result is the line's tokens, none holding a space |
| Commands.ParseTokens | src/app/app.cc:88-116 | an empty list iff no command; an invalid-command warning iff the first token is none of the command words |
| Commands.ParseInputTokens | src/app/app.cc:118-141 | no token iff input help; a file source iff "file" and a name follow, carrying that name; every outcome is an input command or complaint |
| Commands.ParseProcessingTokens | src/app/app.cc:143-220 | no token iff processing help; a Haar classifier iff "haar" is followed by one of the cascade names, and it is the cascade of that name |
| Commands.HaarCascadeNamed | src/app/app.cc:163-213 | a name that selects a cascade is that cascade's name |
| Commands.HaarCascadeNamesRoundTrip | src/app/app.cc:163-213 | every cascade is selected by its own name, so the fifteen names select fifteen distinct cascades |
| Commands.ParseRender | src/app/app.cc:88-220 | every command other than a complaint is produced by its canonical token list |
| Commands.ParseRenderInput | src/app/app.cc:118-141 | the input commands are produced by their token lists |
| Commands.ParseRenderProcessing | src/app/app.cc:143-220 | the processing commands are produced by their token lists |
| Commands.QuitAlias | src/app/app.cc:96-97 | "q" and "quit" both quit, whatever follows |
| Commands.HelpAlias | src/app/app.cc:98-99 | "h" and "help" both show the general help, whatever follows |
| Commands.InputAlias | src/app/app.cc:108-109 | "i" and "input" both pass the rest to the input parser |
| Commands.ProcessingAlias | src/app/app.cc:110-111 | "p" and "processing" both pass the rest to the processing parser |
| Application.Apply | src/app/app.cc:96-220 | the effect of each command: quit raises the flag; start runs every stage; pause, stop and a source change stop the input; no command replaces the consumer; help, stats, a missing filename and the complaints change nothing |
| Application.PauseIsStop | src/app/app.cc:306-316 | "pause" and "stop" have the same effect |
| Application.ApplyIsIdempotent | src/app/app.cc:300-363 | carrying out a command twice (with the same capture outcome) has the effect of carrying it out once |
| Application.SourceChangeThenStart | src/app/app.cc:344-347 | after "input file NAME" then "start", the input runs a new file source for NAME, open exactly when the capture opened |
| Application.App.constructor | src/app/app.cc:24-45 | a webcam input with period 33 holding an unopened webcam, a processor with period 0 reading the input through a BYPASS colorspace factory with an empty timing window, and a "Video Player" output with period 33 reading the processor; all stopped, sharing the flag, with every slot empty; these are the settings Apply starts from |
| Application.App.Start | src/app/app.cc:300-304 | the settings change as Apply says for start: all three stages run and the input's source is opened; everything else, including the processor's factory, is kept |
| Application.App.Pause | src/app/app.cc:306-310 | as Apply says for pause: all three stages stop; strategies and factories are kept |
| Application.App.Stop | src/app/app.cc:312-316 | as Apply says for stop, the same as pause |
| Application.App.SetSourceWebcam | src/app/app.cc:339-342 | as Apply says: the input stops and holds a webcam factory and an unopened webcam; nothing else changes |
| Application.App.SetSourceVideoFile | src/app/app.cc:344-347 | as Apply says: the input stops and holds a file factory and an unopened file source carrying the filename; nothing else changes |
| Application.App.SetTransformerColorspace | src/app/app.cc:349-352 | as Apply says: the processor converts to the colorspace through a new colorspace factory; nothing else changes |
| Application.App.SetTransformerHaarCascadeClassifier | src/app/app.cc:354-357 | as Apply says: the processor runs the cascade's classifier through a Haar factory for it; nothing else changes |
| Application.App.Quit | src/app/app.cc:359-363 | the shared shutdown flag is raised |
| Application.App.Execute | src/app/app.cc:96-220 | the settings change exactly as Apply says for the command; only a transformer command replaces the processor's factory |
| Application.App.ParseTokens | src/app/app.cc:88-116 | the settings change as Apply says for the command the tokens denote; an empty list or an unknown first token changes nothing |
| Application.App.Step | src/app/app.cc:70-74 | continues iff the flag was clear; then the line's command is carried out as Apply says; once the flag is raised nothing changes |
| UserInterface.ParseInput | src/ui/ui.cc:38-49 | quit iff "q" or "quit"; help iff "h" or "help" |
| UserInterface.AgreesWithApplication | src/ui/ui.cc:38-49 | a single word quits or asks for help in the interface iff it does so in the application's parser |
| UserInterface.Ui.constructor | src/ui/ui.cc:16-20 | the interface shares the given flag |
| UserInterface.Ui.ProcessInput | src/ui/ui.cc:38-49 | the flag is raised exactly when it was or the input is a quit command |
| UserInterface.Ui.Quit | src/ui/ui.cc:62-65 | the flag is raised, also when it already was |
| UserInterface.Ui.Step | src/ui/ui.cc:29-33 | continues iff the flag was clear; once raised no command is processed |

## Left out

- Threads, mutexes, condition variables and the timed waits are not modelled. Each worker loop is a caller-driven `Step`. `NotifyListeners` and `Throttle` change no field, and `Init` and the task join of `Shutdown` (src/video_task.cc:22-24) are not part of this model.
- OpenCV is not modelled. A frame is an abstract pixel sequence, a conversion is the `library` parameter, and opening a capture and reading a frame are parameters. The gray conversion's channel test (src/video/processing/colorspace_transformer.cc:15) belongs to `library`.
- Floating point is not modelled. Samples are integers and averages are exact reals. The standard deviation (`std::sqrt`) is not modelled. The processor's timing sample is an integer parameter rather than seconds as a `double` read from the clock.
- Not modelled: reading standard input (the line is a parameter), the logger, the help texts, `PrintStats`' file reading, the diagnostics task, `main`, signal handling, and the superseded copies of the stages under src/.
- The Haar factory's constructor takes a cascade filename (include/video/processing/haar_cascade_classifier.h:24), but the application passes an enumeration value (src/app/app.cc:354-357). The model identifies a Haar factory by its cascade tag.
- "input file" with no filename reads the front of an empty token list, which is undefined behaviour (src/app/app.cc:129-134). The model makes it the `FilenameMissing` command, which changes nothing.
- Frames are values. In the source, `GetOutputFrame` assigns a cv::Mat, which shares the pixel data with the upstream slot rather than copying it, and the processor then transforms its next slot in place (src/video_task.cc:26, src/video/video_processor.cc:63-66). A conversion that writes into its input, such as the HSV conversion (src/video/processing/colorspace_transformer.cc:21), can therefore also change the input stage's current frame. That aliasing is not captured: in the model the upstream stage's slots are unchanged by a processor step.
- FifoStatistics.StatisticsQueue.UpdateStatistics: the source loops with a range-for over a `std::queue` (include/statistics_queue.h:72), which has no iterators, so the template does not compile once instantiated; the function is called nowhere. The model reads the loop as a scan of the queue from front (oldest) to back.
- include/video/video_output.h does not declare the `Start` and `Stop` that src/video/video_output.cc:32-34 defines. The model follows the .cc file.
- A capacity of zero is excluded by the requires of both `Push` methods: the first push would read the back of an empty deque or pop an empty queue.
- The variance field of the FIFO queue is never initialised by its constructor (include/statistics_queue.h:18-23). The model does not constrain it until `UpdateStatistics` sets it.
- RollingStatistics.StatisticsQueue.GetStatistics: the reported minimum and maximum are proved to be the window's extremes only until the first eviction. After an eviction each heap has popped its own top rather than the evicted sample, so they can differ (see `EvictionSkewsMinimum`).
- RollingStatistics.StatisticsQueue.Push: the heaps' multisets are stated as "popped top removed, value added" rather than as the window's samples. After an eviction they are not the window's samples.
- The statistics queues' mutexes are not modelled; every operation is taken to run alone.
