# snake-dqn-minimal: a Dafny model of the training controller and the agent's bookkeeping

This project models the sequential logic of a small deep-Q-learning trainer for
the game of snake. It has three parts:

- **train.js**: the `MovingAverager` window and the control logic of `train`.
  `train` has a warm-up that fills the replay memory. It then repeats one
  training step and one game step. At the end of each episode it appends to
  the two 100-episode moving averages, runs the stopping test and runs the
  strict-improvement best-average tracker. Last comes the periodic copy of the
  online network into the target network.
- **agent.js**: the `SnakeGameAgent`:
  - the linear epsilon schedule;
  - the bookkeeping of `playStep`: the frame counter, the epsilon-greedy
    choice, the replay-memory append, and the episode accumulators, which go
    into the output record before the reset;
  - the arithmetic of `trainOnReplayBatch`: the Q-learning targets, the
    one-hot selection of the taken action's value, and the mean squared error.
- **utils.js**: `assertPositiveInteger`, `getRandomInteger` and
  `getRandomIntegers`.

Modules and files:

| file | module | contents |
|---|---|---|
| wrappers.dfy | `Wrappers` | `Option` |
| experience.dfy | `Experience` | game states, actions, weights, the replay transition |
| utils.dfy | `Utils` | the guard and the range helpers |
| moving_averager.dfy | `MovingAverage` | the window functions and the `MovingAverager` class |
| q_learning.dfy | `QLearning` | targets, one-hot selection, squared errors, the batch loss |
| agent.dfy | `Agent` | the epsilon schedule, the pure step function `Step` and its iteration `Run`, and the `SnakeGameAgent` class |
| training.dfy | `Training` | one loop iteration `Iterate`, the loop `Loop`, the whole `TrainSpec`, and the imperative `Train` |
| training_properties.dfy | `TrainingProperties` | what holds over a whole run |

Each operation that updates state in place is a method, on a class where the
source has one, with the fields the source mutates:

- `MovingAverager.Append`;
- `SnakeGameAgent.Reset`, `PlayStep` and `TrainOnReplayBatch`;
- the module-level `Training.Train`, `WarmUp`, `MainLoop` and `LoopBody`, as
  `train` is a module-level function.

Each such method is proved equal to a pure function of the old state:
`Appended`, `ResetEpisode`, `Step`, `TrainOnBatch` and `TrainSpec`. The
properties are then proved about those functions.

Things the model receives as inputs, never computes:

- the game;
- `Math.random()`, `getRandomAction()` and the online network's `argMax` choice;
- the replay memory's sample;
- the two networks' outputs;
- the weights the optimizer produces.

One game step receives those as a `StepInput`; one training step receives a
`TrainingBatch`. `train` consumes finite sequences of both. JavaScript loops
until the stopping test passes; here, running out of either sequence ends the
run with `OutOfInput`.

The training loop records what it does as a log of events:

- `Trained(loss)`;
- `Played(output)`;
- `NewBest(average, saved)`;
- `Synced`.

The run-wide properties are read off that log.

Until 100 episodes have finished, an averager's window still holds `null`
slots. Under JavaScript's `+`, `null` counts as 0, so the average of a window
that is not yet full is the sum over the full length 100, a number and never
NaN.

## Model

| member | source | states |
|---|---|---|
| Utils.AssertPositiveInteger | utils.js:15-24 | passes exactly when the value is an integer above 0; a non-integer always gets the "integer" error, even when it is also not positive; an integer at or below 0 gets the "positive" error |
| Utils.AssertPositiveIntegerPassesExactly | utils.js:15-24 | the guard returns normally exactly on the numbers 1, 2, 3, ... |
| Utils.AssertPositiveIntegerExamples | utils.js:16-23 | -1.5, NaN and Infinity get the integer error; 0 and -3 get the positive error; 5 passes |
| Utils.IsInteger | utils.js:16 | `Number.isInteger`: a finite number with no fractional part; AssertPositiveIntegerPassesExactly states what passes |
| Utils.GetRandomInteger | utils.js:3-5 | with min < max and a draw in [0, 1), the floor-scaled value lies in [min, max) |
| Utils.GetRandomIntegerCoversRange | utils.js:3-5 | every integer of [min, max) is returned for some draw in [0, 1) |
| Utils.GetRandomIntegers | utils.js:7-13 | exactly numIntegers values (none when it is 0 or less); value i is the floor formula applied to the i-th draw, so it lies in [min, max) when the draws are in [0, 1) |
| MovingAverage.Nulls | train.js:13-18 | n slots, every one empty |
| MovingAverage.MovingAverager.constructor | train.js:13-18 | the push loop leaves exactly bufferLength empty slots |
| MovingAverage.Appended | train.js:20-23 | a non-empty window keeps its length and ends with the new value; an empty one becomes just that value |
| MovingAverage.MovingAverager.Append | train.js:20-23 | the buffer becomes the old one without its first slot, with x pushed at the end |
| MovingAverage.AppendAllWindow | train.js:20-23 | after appending xs, the window is the old one with as many slots dropped from the front as values were appended, followed by those values |
| MovingAverage.LastAppendedValues | train.js:20-23 | after n or more appends to a window of length n, the window is the last n values, oldest first |
| MovingAverage.FewAppendsWindow | train.js:13-23 | after at most n appends to a fresh window, the empty slots that remain are in front of the values |
| MovingAverage.ReduceAddIsSum | train.js:26 | the `reduce` left fold without an initial value adds up the same numbers as the sum, with empty slots as 0 |
| MovingAverage.ReduceAdd | train.js:26 | definition of the seedless left fold of `reduce` with `+`, null read as 0; ReduceAddIsSum equates it with Sum |
| MovingAverage.Mean | train.js:25-27 | the sum of the window divided by its full length; undefined (the `reduce` error) only for an empty window |
| MovingAverage.MovingAverager.Average | train.js:25-27 | `average()` is the mean of the current buffer |
| MovingAverage.SumOfNulls | train.js:25-27 | a fresh window averages to 0, not NaN |
| MovingAverage.PartialWindowAverage | train.js:25-27 | before the window fills, the average is the sum of the appended values over the full length |
| MovingAverage.WindowOfThreeExample | train.js:20-27 | window 3: appending 1, 2, 3 averages 2; then appending 4 gives [2, 3, 4], which averages 3 |
| QLearning.DoneMask | agent.js:98-99 | definition of `1 - done` as a float; TargetQ states its effect on the target |
| QLearning.TargetQ | agent.js:98-101 | a terminal example's target is its reward exactly; any other is reward + gamma * nextMaxQ |
| QLearning.RowMax | agent.js:96-97 | `max(-1)` is an element of the row and no element exceeds it |
| QLearning.MaskedSumOneHot | agent.js:90-91 | multiplying a row by a one-hot mask and summing gives the entry at the hot index (0 when the index is out of range) |
| QLearning.OneHot | agent.js:91 | definition of `tf.oneHot(a, n)`, of length n; MaskedSumOneHot states what it selects |
| QLearning.MaskedSum | agent.js:90-91 | definition of `mul(...).sum(-1)` on one row; MaskedSumOneHot states its value against a one-hot mask |
| QLearning.SelectedQ | agent.js:88-91 | the value of the taken action is the online output at that action's index |
| QLearning.Predictions | agent.js:88-91 | one prediction per example: the online output row at the example's action |
| QLearning.Targets | agent.js:93-101 | one target per example: the reward for a terminal example, otherwise reward + gamma * the row maximum of the target output |
| QLearning.SquaredError | agent.js:102 | never negative, and 0 exactly when prediction and target agree |
| QLearning.SquaredErrorSumZero | agent.js:102 | a sum of squared errors is never negative, and it is 0 exactly when the two sequences are equal |
| QLearning.SquaredErrorSum | agent.js:102 | definition of the sum of squared errors; SquaredErrorSumZero states its sign and zero case |
| QLearning.MeanSquaredError | agent.js:102 | undefined (NaN) exactly for an empty batch; otherwise never negative, and 0 exactly when targets equal predictions |
| QLearning.BatchLoss | agent.js:85-103 | the loss is undefined exactly on an empty sample; otherwise it is never negative, and it is 0 exactly when every prediction equals its target |
| QLearning.TerminalTargetsIgnoreTargetNetwork | agent.js:96-101 | the target network's rows for terminal examples do not affect the loss |
| QLearning.TargetExample | agent.js:100-101 | gamma 0.9, reward 1, next best 2: the target is 2.8, or exactly 1 when done |
| Agent.Epsilon | agent.js:41-43 | the final rate once frameCount reaches epsilonDecayFrames; before that init + (final - init) * frameCount / decayFrames; always between the two rates |
| Agent.EpsilonIncrement | agent.js:15-16 | definition of `epsilonIncrement_`; Epsilon states the schedule it drives and PlayStep proves the increment form equal to it |
| Agent.EpsilonAtStart | agent.js:41-43 | the first step uses epsilonInit (epsilonFinal when there are no decay frames) |
| Agent.EpsilonNonIncreasing | agent.js:15-16 | with a final rate at or below the initial one, the rate never increases with the frame counter |
| Agent.EpsilonExample | train.js:131-136 | the configured schedule 0.8 to 0.01 over 50000 frames: 0.8 at frame 0, 0.405 at 25000, 0.01 from 50000 on |
| Agent.ResetEpisode | agent.js:34-38 | both accumulators become 0 and the game is reset; nothing else changes |
| Agent.Initial | agent.js:9-32 | frame counter 0, no rate yet, empty replay memory, zero accumulators, one game reset |
| Agent.ChooseAction | agent.js:49-60 | the random action exactly when the draw is below epsilon, otherwise the greedy action |
| Agent.Step | agent.js:40-80 | the rate comes from the frame counter before the increment; the counter grows by 1; exactly one transition is appended, with the state observed before the move; the reward and fruit accumulators grow; the record carries them before the reset; on done both become 0 and the game is reset, otherwise they carry over; the weights are untouched |
| Agent.Run | agent.js:40-44 | one output per step; the frame counter grows by the number of steps; the weights are untouched |
| Agent.RunSteps | agent.js:41-64 | over a run, step i explores exactly when its draw is below the rate for frame start + i, and the replay memory grows by one transition per step, in order, keeping what it held |
| Agent.RunEpisodeTotals | agent.js:66-78 | after a run the accumulators hold the rewards and fruits of the steps since the last finished episode, added to the old values only when no episode finished |
| Agent.EpisodeReward | agent.js:66-79 | the record of the step that ends an episode carries the sum of that episode's rewards and its fruit count |
| Agent.TrainingLoss | agent.js:84-103 | the loss of the batch is undefined exactly when the sample is empty |
| Agent.TrainOnBatch | agent.js:107-109 | the training step replaces the online weights only; the frozen target network is untouched |
| Agent.SnakeGameAgent.constructor | agent.js:9-32 | the agent starts in the initial state for its configuration |
| Agent.SnakeGameAgent.Reset | agent.js:34-38 | the new state is ResetEpisode of the old one |
| Agent.SnakeGameAgent.PlayStep | agent.js:40-80 | the new state and the returned record are those of Step on the old state |
| Agent.SnakeGameAgent.TrainOnReplayBatch | agent.js:82-112 | only the online weights change, to the optimizer's; the batch loss is reported |
| Training.FreshMonitor | train.js:43-50 | two windows of 100 slots, and a best of -Infinity |
| Training.StopTest | train.js:80-84 | the loop stops exactly when the average reaches the threshold or the frame counter reaches the cap; the threshold reason exactly when the average reaches it |
| Training.Synchronise | train.js:96-99 | when frameCount % syncEveryFrames is 0, the target takes the online weights and a sync is logged; otherwise nothing changes; never with 0 frames between syncs |
| Training.SyncDue | train.js:96 | definition of the sync test, false when `syncEveryFrames` is 0 (`% 0` is NaN); Synchronise and IterateDecisions state its effect |
| Training.Exceeds | train.js:85 | definition of "strictly above the best so far", always true against the -Infinity the best starts at; NewBestConsistent and IterateDecisions state its effect |
| Training.Average | train.js:63 | the moving average is the window's sum over its length |
| Training.AfterStep | train.js:54-99 | definition of the end-of-episode appends and the stop / best / sync decisions; IterateDecisions states them and AfterStepConsistent proves they keep the run invariant |
| Training.Iterate | train.js:51-53 | definition of one loop iteration: train, play, then AfterStep, inert once stopped; IterateDecisions and IterateConsistent state its properties |
| Training.Loop | train.js:51-100 | definition of the loop as n iterations; LoopStopped, LoopConsistent and MainLoop state its properties |
| Training.LoopStopped | train.js:80-84 | once the loop has stopped, further iterations change nothing |
| Training.PlayedAll | train.js:38-40 | the warm-up logs one played step per output and nothing else |
| Training.WarmUp | train.js:38-40 | the warm-up calls playStep replayBufferSize times (fewer only if the steps run out) and never trains; the agent ends as Run says |
| Training.LoopBody | train.js:52-99 | one pass of the object-level loop body equals one Iterate on the state it models |
| Training.MainLoop | train.js:42-100 | the object-level loop equals Loop from fresh averagers, run until it stops or an input runs out |
| Training.Train | train.js:30-101 | the agent, the log and the outcome are those of TrainSpec on the old agent state |
| Training.TrainSpec | train.js:30-101 | definition of the whole `train`: the warm-up Run, then Loop from fresh averagers; Train is proved equal to it and TrainProperties states what holds over it |
| TrainingProperties.LogShapeMeans | train.js:52-99 | in a well-formed log every training step is followed by a game step, every game step follows a training step, every new best follows a game step that finished an episode, and every sync follows a game step or a new best |
| TrainingProperties.StartConsistent | train.js:42-50 | the loop starts consistent: no events, empty windows, best -Infinity, frames counted from the warm-up's end |
| TrainingProperties.SteppedConsistent | train.js:52-62 | a training step, then a game step, then the end-of-episode appends keep the loop consistent |
| TrainingProperties.NewBestConsistent | train.js:85-86 | a strictly better average after a finished episode extends the strictly increasing list of bests and becomes the best |
| TrainingProperties.AfterStepConsistent | train.js:54-99 | the stop / best / sync decisions keep the loop consistent, and a stop happens on a finished episode for the reason the test gives |
| TrainingProperties.IterateConsistent | train.js:51-100 | one iteration of the loop preserves the run invariant |
| TrainingProperties.LoopConsistent | train.js:51-100 | every state the loop reaches from a consistent one is consistent |
| TrainingProperties.IterateDecisions | train.js:52-99 | each iteration logs one training step, then one game step, and adds one frame. It stops exactly on a finished episode with the average at the threshold or the frame cap reached; it then keeps the best and skips the sync. The best changes exactly when the loop goes on after a finished episode with a strictly higher average; the first such episode always sets it. The target takes the online weights exactly when the loop goes on and the frame counter is a multiple of syncEveryFrames |
| TrainingProperties.TrainProperties | train.js:38-100 | the warm-up only plays, exactly replayBufferSize times when there are enough steps. After it, training and game steps alternate; each new best is strictly higher than the last; frames are counted by game steps. A stopped run ended on a finished episode whose 100-episode average or frame count passed the stopping test |

## Left out

- dqn.js is not part of this model.
  - `createDeepQNetwork` only builds layers.
  - `copyWeights` becomes the assignment of the online weights to the target.
- Tensor execution, automatic differentiation and the Adam optimizer are left
  out. Their only effect that the model sees is the new online weights, which
  is an input of each training step.
- Floating-point rounding is left out. Rewards, rates and losses are exact
  reals.
- The snake game and the replay memory are separate modules and are not part
  of this model.
  - The game is the log of calls made on it. The state it returns is an input.
  - The replay memory is the log of appended transitions, with no capacity,
    eviction or sampling. The sample is an input of the training step.
- `Math.random()`, `getRandomAction()` and the `argMax` of the online network's
  prediction are inputs of each step.
- Wall-clock time, frames per second, console output, the TensorBoard summary
  writer, directory creation and saving the network are I/O and are left out.
  A new best is logged together with whether a save path was given, which is
  when the source saves.
- `parseArguments`, `main` and async/await are left out. Only the
  configuration values `main` passes appear, in `Agent.EpsilonExample`.
- `learningRate` and `batchSize` of `train` are left out. They only reach the
  optimizer and the replay memory's sample, and both are inputs here.
- Agent.SnakeGameAgent.TrainOnReplayBatch: it returns the batch loss, which
  the source computes but does not return. The loop logs it with each training
  step. This adds an observation and changes no state.
- Training.Train: the source's `while (true)` runs until the stopping test
  passes. Here the run also ends, with `OutOfInput`, when the supplied training
  batches or game steps run out.
- Agent.EpsilonIncrement: without decay frames, JavaScript's increment is an
  infinity or NaN. Here it is 0. The schedule never reads it in that case,
  because every frame counter is then at or past the decay.
- Numbers from the agent's configuration (`epsilonDecayFrames`,
  `replayBufferSize`) and the frame counter are natural numbers. Fractional or
  negative configuration values are not modelled.
- The `train` arguments `maxNumFrames` and `syncEveryFrames` are integers in
  `Params`. A fractional value is not modelled: with `syncEveryFrames` 2.5,
  for instance, JavaScript syncs only on multiples of 5.
- Utils.GetRandomInteger: takes integer bounds. Fractional bounds, for which
  the JavaScript result is not an integer, are not modelled.
- Utils.GetRandomIntegers: takes integer bounds and an integer count. A
  fractional count (2.5 runs the loop three times) and fractional bounds are
  not modelled.
- `assertPositiveInteger` is imported by agent.js but never called there. No
  configuration check is modelled in the constructor.
