/**
 * The control logic of `train` in train.js: a warm-up that fills the replay
 * memory, then iterations of one training step and one game step; at the
 * end of each episode the two moving averages of the last 100 episodes, the
 * stopping test and the best-average tracker; and the periodic copy of the
 * online weights into the target network.
 *
 * JavaScript loops forever until the stopping test passes. Here the game
 * steps and the training batches are finite input sequences, and running
 * out of either ends the loop with `OutOfInput`. Logging, timing and the
 * summary writer are left out; a new best average is an event that records
 * whether a save path was configured (that is where the source saves the
 * online network).
 */
module Training {
  import opened Wrappers
  import opened Experience
  import opened MovingAverage
  import opened Agent

  /** Both moving averagers cover the 100 most recent episodes. */
  const AveragerLength: nat := 100

  /** The arguments of `train` the control logic reads. */
  datatype Params = Params(
    gamma: real,
    cumulativeRewardThreshold: real,
    maxNumFrames: int,
    syncEveryFrames: int,
    hasSavePath: bool)

  /** What one run of the loop does, in order. */
  datatype Event =
    | Played(output: StepOutput)
    | Trained(loss: Option<real>)
    | NewBest(average: real, saved: bool)
    | Synced

  /** Which half of the stopping test held first. */
  datatype StopReason = ThresholdReached | FrameCapReached

  datatype Outcome = Stopped(reason: StopReason) | OutOfInput

  /** `averageReward100Best`, which starts at `-Infinity`. */
  datatype Best = MinusInfinity | Reached(value: real)

  /** `average > averageReward100Best`: always true against `-Infinity`. */
  predicate Exceeds(average: real, best: Best)
  {
    best.MinusInfinity? || average > best.value
  }

  /** The two averagers' windows and the best average so far. */
  datatype Monitor = Monitor(rewards: seq<Slot>, eaten: seq<Slot>, best: Best)

  /** Both averagers start as 100 null slots, and no episode has set a best yet. */
  function FreshMonitor(): (m: Monitor)
    ensures |m.rewards| == AveragerLength && |m.eaten| == AveragerLength
    ensures forall i | 0 <= i < AveragerLength :: m.rewards[i].Null? && m.eaten[i].Null?
    ensures m.best == MinusInfinity
  {
    Monitor(Nulls(AveragerLength), Nulls(AveragerLength), MinusInfinity)
  }

  /** The state of the loop: the agent, the monitor, the events so far and whether it has stopped. */
  datatype LoopState = LoopState(agent: AgentState, monitor: Monitor, events: seq<Event>, stop: Option<StopReason>)

  /**
   * `averageReward100 >= cumulativeRewardThreshold || agent.frameCount >= maxNumFrames`:
   * the loop stops exactly when one of the two holds.
   */
  function StopTest(average: real, frameCount: nat, p: Params): (r: Option<StopReason>)
    ensures r.Some? <==> average >= p.cumulativeRewardThreshold || frameCount >= p.maxNumFrames
    ensures r == Some(ThresholdReached) <==> average >= p.cumulativeRewardThreshold
  {
    if average >= p.cumulativeRewardThreshold then Some(ThresholdReached)
    else if frameCount >= p.maxNumFrames then Some(FrameCapReached)
    else None
  }

  /**
   * `agent.frameCount % syncEveryFrames === 0`. With 0 frames between syncs
   * JavaScript's remainder is NaN, so the copy never happens; otherwise it
   * happens exactly on the multiples.
   */
  predicate SyncDue(frameCount: nat, syncEveryFrames: int)
  {
    syncEveryFrames != 0 && frameCount % syncEveryFrames == 0
  }

  /** `copyWeights(agent.targetNetwork, agent.onlineNetwork)` when it is due. */
  function Synchronise(p: Params, st: LoopState): (r: LoopState)
    ensures SyncDue(st.agent.frameCount, p.syncEveryFrames) ==>
              r == st.(agent := st.agent.(target := st.agent.online), events := st.events + [Synced])
    ensures !SyncDue(st.agent.frameCount, p.syncEveryFrames) ==> r == st
  {
    if SyncDue(st.agent.frameCount, p.syncEveryFrames) then
      st.(agent := st.agent.(target := st.agent.online), events := st.events + [Synced])
    else st
  }

  /** The average of a non-empty window. */
  function Average(window: seq<Slot>): (a: real)
    requires |window| > 0
    ensures a == Sum(window) / |window| as real
  {
    Mean(window).value
  }

  /**
   * The rest of the loop body once the training step and the game step are
   * done: at the end of an episode append to both averagers, test for
   * stopping (the `break` skips everything after it), then track the best
   * average; finally sync the target network when due.
   */
  function AfterStep(p: Params, st: LoopState, loss: Option<real>, step: StepResult): (r: LoopState)
  {
    var out := step.output;
    var events := st.events + [Trained(loss), Played(out)];
    if out.done then
      var rewards := Appended(st.monitor.rewards, out.cumulativeReward);
      var eaten := Appended(st.monitor.eaten, out.fruitsEaten as real);
      var average := Average(rewards);
      var stop := StopTest(average, step.agent.frameCount, p);
      if stop.Some? then
        LoopState(step.agent, Monitor(rewards, eaten, st.monitor.best), events, stop)
      else if Exceeds(average, st.monitor.best) then
        Synchronise(p, LoopState(step.agent, Monitor(rewards, eaten, Reached(average)),
                                 events + [NewBest(average, p.hasSavePath)], None))
      else
        Synchronise(p, LoopState(step.agent, Monitor(rewards, eaten, st.monitor.best), events, None))
    else
      Synchronise(p, LoopState(step.agent, st.monitor, events, None))
  }

  /** One run of the loop body: train, play one step, then the rest. A stopped loop does nothing more. */
  function Iterate(c: AgentConfig, p: Params, st: LoopState, tb: ShapedBatch, input: StepInput): (r: LoopState)
  {
    if st.stop.Some? then st
    else AfterStep(p, st, TrainingLoss(tb, p.gamma), Step(c, TrainOnBatch(st.agent, tb), input))
  }

  /** The loop body run n times, the i-th time on `batches[i]` and `inputs[i]`. */
  function Loop(c: AgentConfig, p: Params, st: LoopState, batches: seq<ShapedBatch>, inputs: seq<StepInput>, n: nat)
    : (r: LoopState)
    requires n <= |batches| && n <= |inputs|
    decreases n
  {
    if n == 0 then st
    else Iterate(c, p, Loop(c, p, st, batches, inputs, n - 1), batches[n - 1], inputs[n - 1])
  }

  /** Once the loop has stopped, further runs of the body change nothing. */
  lemma {:induction false} LoopStopped(
    c: AgentConfig, p: Params, st: LoopState, batches: seq<ShapedBatch>, inputs: seq<StepInput>, n: nat, m: nat)
    requires n <= m <= |batches| && m <= |inputs|
    requires Loop(c, p, st, batches, inputs, n).stop.Some?
    ensures Loop(c, p, st, batches, inputs, m) == Loop(c, p, st, batches, inputs, n)
    decreases m
  {
    if n < m {
      LoopStopped(c, p, st, batches, inputs, n, m - 1);
    }
  }

  /** One played step per output, as the event log records the warm-up. */
  function PlayedAll(outputs: seq<StepOutput>): (ev: seq<Event>)
    ensures |ev| == |outputs|
    ensures forall i | 0 <= i < |outputs| :: ev[i] == Played(outputs[i])
  {
    seq(|outputs|, i requires 0 <= i < |outputs| => Played(outputs[i]))
  }

  datatype TrainResult = TrainResult(agent: AgentState, events: seq<Event>, outcome: Outcome)

  function Min(a: nat, b: nat): nat
  {
    if a <= b then a else b
  }

  /** The loop as it starts after the warm-up: fresh averagers, best -Infinity, no events. */
  function LoopStart(agent: AgentState): LoopState
  {
    LoopState(agent, FreshMonitor(), [], None)
  }

  /**
   * `train(agent, ...)`: `replayBufferSize` warm-up steps, then the loop
   * over as many batches and further steps as there are.
   */
  function TrainSpec(c: AgentConfig, p: Params, s: AgentState, batches: seq<ShapedBatch>, inputs: seq<StepInput>)
    : (r: TrainResult)
  {
    var w := c.replayBufferSize;
    if |inputs| < w then
      var warm := Run(c, s, inputs);
      TrainResult(warm.agent, PlayedAll(warm.outputs), OutOfInput)
    else
      var warm := Run(c, s, inputs[..w]);
      var final := Loop(c, p, LoopStart(warm.agent), batches, inputs[w..], Min(|batches|, |inputs[w..]|));
      TrainResult(final.agent, PlayedAll(warm.outputs) + final.events,
                  if final.stop.Some? then Stopped(final.stop.value) else OutOfInput)
  }

  /** The warm-up `for` loop: `replayBufferSize` calls of `playStep`, or fewer if the steps run out. */
  method WarmUp(agent: SnakeGameAgent, inputs: seq<StepInput>) returns (events: seq<Event>, played: nat)
    modifies agent
    ensures played == Min(agent.replayBufferSize, |inputs|)
    ensures var warm := Run(agent.Config(), old(agent.State()), inputs[..played]);
      agent.State() == warm.agent && events == PlayedAll(warm.outputs)
  {
    ghost var c := agent.Config();
    ghost var s := agent.State();
    events := [];
    played := 0;
    while played < agent.replayBufferSize && played < |inputs|
      invariant 0 <= played <= Min(agent.replayBufferSize, |inputs|)
      invariant Run(c, s, inputs[..played]).agent == agent.State()
      invariant PlayedAll(Run(c, s, inputs[..played]).outputs) == events
    {
      assert inputs[..played + 1][..played] == inputs[..played];
      var output := agent.PlayStep(inputs[played]);
      events := events + [Played(output)];
      played := played + 1;
    }
  }

  /** One run of the `while (true)` body on the agent object and the two averagers. */
  method LoopBody(
    agent: SnakeGameAgent, p: Params, tb: ShapedBatch, input: StepInput,
    rewardAverager: MovingAverager, eatenAverager: MovingAverager, best: Best, events: seq<Event>,
    ghost start: LoopState, ghost batches: seq<ShapedBatch>, ghost inputs: seq<StepInput>, ghost j: nat)
    returns (best': Best, events': seq<Event>, stop: Option<StopReason>)
    requires rewardAverager != eatenAverager
    requires |rewardAverager.buffer| == AveragerLength && |eatenAverager.buffer| == AveragerLength
    requires j < |batches| && j < |inputs| && batches[j] == tb && inputs[j] == input
    requires Loop(agent.Config(), p, start, batches, inputs, j)
             == LoopState(agent.State(), Monitor(rewardAverager.buffer, eatenAverager.buffer, best), events, None)
    modifies agent, rewardAverager, eatenAverager
    ensures |rewardAverager.buffer| == AveragerLength && |eatenAverager.buffer| == AveragerLength
    ensures Loop(agent.Config(), p, start, batches, inputs, j + 1)
            == LoopState(agent.State(), Monitor(rewardAverager.buffer, eatenAverager.buffer, best'), events', stop)
  {
    var loss := agent.TrainOnReplayBatch(p.gamma, tb);
    var output := agent.PlayStep(input);
    events' := events + [Trained(loss), Played(output)];
    best' := best;
    stop := None;
    if output.done {
      rewardAverager.Append(output.cumulativeReward);
      eatenAverager.Append(output.fruitsEaten as real);
      var averageReward := rewardAverager.Average().value;
      if averageReward >= p.cumulativeRewardThreshold || agent.frameCount >= p.maxNumFrames {
        stop := Some(if averageReward >= p.cumulativeRewardThreshold then ThresholdReached else FrameCapReached);
        return;
      }
      if Exceeds(averageReward, best) {
        best' := Reached(averageReward);
        events' := events' + [NewBest(averageReward, p.hasSavePath)];
      }
    }
    if SyncDue(agent.frameCount, p.syncEveryFrames) {
      agent.targetWeights := agent.onlineWeights;
      events' := events' + [Synced];
    }
  }

  /**
   * The `while (true)` loop after the warm-up, on fresh averagers: it runs
   * until the stopping test passes or a batch or a step is missing.
   */
  method MainLoop(agent: SnakeGameAgent, p: Params, batches: seq<ShapedBatch>, inputs: seq<StepInput>)
    returns (events: seq<Event>, stop: Option<StopReason>)
    modifies agent
    ensures var final := Loop(agent.Config(), p, LoopStart(old(agent.State())), batches, inputs, Min(|batches|, |inputs|));
      agent.State() == final.agent && events == final.events && stop == final.stop
  {
    ghost var c := agent.Config();
    ghost var start := LoopStart(agent.State());
    var k := Min(|batches|, |inputs|);
    var rewardAverager := new MovingAverager(AveragerLength);
    var eatenAverager := new MovingAverager(AveragerLength);
    var best := MinusInfinity;
    events := [];
    stop := None;
    var j := 0;
    while j < k && stop.None?
      invariant 0 <= j <= k
      invariant agent.Config() == c
      invariant |rewardAverager.buffer| == AveragerLength && |eatenAverager.buffer| == AveragerLength
      invariant Loop(c, p, start, batches, inputs, j)
                == LoopState(agent.State(), Monitor(rewardAverager.buffer, eatenAverager.buffer, best), events, stop)
    {
      best, events, stop :=
        LoopBody(agent, p, batches[j], inputs[j], rewardAverager, eatenAverager, best, events, start, batches, inputs, j);
      j := j + 1;
    }
    if j < k {
      LoopStopped(c, p, start, batches, inputs, j, k);
    }
  }

  /**
   * `train`, run on the agent object: `batches[j]` is what the j-th
   * training step receives, `inputs[i]` what the i-th game step receives.
   */
  method Train(agent: SnakeGameAgent, p: Params, batches: seq<ShapedBatch>, inputs: seq<StepInput>)
    returns (events: seq<Event>, outcome: Outcome)
    modifies agent
    ensures TrainSpec(agent.Config(), p, old(agent.State()), batches, inputs) == TrainResult(agent.State(), events, outcome)
  {
    var w := agent.replayBufferSize;
    var played;
    events, played := WarmUp(agent, inputs);
    if played < w {
      assert inputs[..played] == inputs;
      outcome := OutOfInput;
    } else {
      var loopEvents, stop := MainLoop(agent, p, batches, inputs[w..]);
      events := events + loopEvents;
      outcome := if stop.Some? then Stopped(stop.value) else OutOfInput;
    }
  }
}
