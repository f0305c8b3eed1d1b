/**
 * The `SnakeGameAgent` of agent.js: the linear epsilon schedule, the
 * bookkeeping of `playStep` (frame counter, episode accumulators, replay
 * memory, the order of output and reset) and the training step.
 *
 * The game, `Math.random()`, `getRandomAction()`, the online network's
 * greedy choice (`argMax`), the replay memory's sample, the networks'
 * outputs and the optimizer's updated weights are not computed here: each
 * step receives them as a `StepInput`, each training step as a
 * `TrainingBatch`. The game is recorded as the log of the calls made on it,
 * the replay memory as the log of the transitions appended to it.
 */
module Agent {
  import opened Wrappers
  import opened Experience
  import opened QLearning

  /** The fields of the `config` object the agent reads. */
  datatype AgentConfig = AgentConfig(
    epsilonInit: real,
    epsilonFinal: real,
    epsilonDecayFrames: nat,
    replayBufferSize: nat)

  /**
   * `epsilonIncrement_ = (epsilonFinal - epsilonInit) / epsilonDecayFrames`.
   * With no decay frames JavaScript yields an infinity or NaN here; the
   * schedule never reads it then, so 0 stands in for it.
   */
  function EpsilonIncrement(c: AgentConfig): real
  {
    if c.epsilonDecayFrames > 0 then (c.epsilonFinal - c.epsilonInit) / c.epsilonDecayFrames as real else 0.0
  }

  lemma MulNonNegative(x: real, y: real)
    requires x >= 0.0 && y >= 0.0
    ensures x * y >= 0.0
  {
  }

  lemma DivThenMul(a: real, d: real, f: real)
    requires d > 0.0
    ensures (a / d) * f == a * (f / d)
  {
  }

  /** a + (b - a) * t lies between a and b for t in [0, 1]. */
  lemma Interpolate(a: real, b: real, t: real)
    requires 0.0 <= t <= 1.0
    ensures a <= b ==> a <= a + (b - a) * t <= b
    ensures b <= a ==> b <= a + (b - a) * t <= a
  {
    if a <= b {
      MulNonNegative(b - a, t);
      MulNonNegative(b - a, 1.0 - t);
    } else {
      MulNonNegative(a - b, t);
      MulNonNegative(a - b, 1.0 - t);
    }
  }

  /**
   * The exploration rate for the step taken at `frameCount`: the final rate
   * once the decay frames have passed, before that the linear interpolation
   * from the initial rate towards the final one.
   */
  function Epsilon(c: AgentConfig, frameCount: nat): (e: real)
    ensures frameCount >= c.epsilonDecayFrames ==> e == c.epsilonFinal
    ensures frameCount < c.epsilonDecayFrames ==>
              e == c.epsilonInit + (c.epsilonFinal - c.epsilonInit) * (frameCount as real / c.epsilonDecayFrames as real)
    ensures c.epsilonInit <= c.epsilonFinal ==> c.epsilonInit <= e <= c.epsilonFinal
    ensures c.epsilonFinal <= c.epsilonInit ==> c.epsilonFinal <= e <= c.epsilonInit
  {
    if frameCount >= c.epsilonDecayFrames then c.epsilonFinal
    else
      var d := c.epsilonDecayFrames as real;
      var f := frameCount as real;
      DivThenMul(c.epsilonFinal - c.epsilonInit, d, f);
      Interpolate(c.epsilonInit, c.epsilonFinal, f / d);
      c.epsilonInit + EpsilonIncrement(c) * f
  }

  /** The first step explores with the initial rate (or the final one when there is no decay). */
  lemma EpsilonAtStart(c: AgentConfig)
    ensures Epsilon(c, 0) == if c.epsilonDecayFrames > 0 then c.epsilonInit else c.epsilonFinal
  {
  }

  lemma MulMonotone(x: real, f1: real, f2: real)
    requires x <= 0.0 && f1 <= f2
    ensures x * f2 <= x * f1
  {
    MulNonNegative(-x, f2 - f1);
  }

  /** A decaying schedule (final rate below the initial one) never increases. */
  lemma EpsilonNonIncreasing(c: AgentConfig, f1: nat, f2: nat)
    requires c.epsilonFinal <= c.epsilonInit && f1 <= f2
    ensures Epsilon(c, f2) <= Epsilon(c, f1)
  {
    if f2 < c.epsilonDecayFrames {
      assert EpsilonIncrement(c) <= 0.0 by {
        var d := c.epsilonDecayFrames as real;
        assert (c.epsilonFinal - c.epsilonInit) / d <= 0.0;
      }
      MulMonotone(EpsilonIncrement(c), f1 as real, f2 as real);
    }
  }

  /** The rates train.js configures: 0.8 decaying to 0.01 over 50000 frames. */
  lemma EpsilonExample()
    ensures Epsilon(AgentConfig(0.8, 0.01, 50000, 5000), 0) == 0.8
    ensures Epsilon(AgentConfig(0.8, 0.01, 50000, 5000), 25000) == 0.405
    ensures Epsilon(AgentConfig(0.8, 0.01, 50000, 5000), 50000) == 0.01
    ensures Epsilon(AgentConfig(0.8, 0.01, 50000, 5000), 70000) == 0.01
  {
    var c := AgentConfig(0.8, 0.01, 50000, 5000);
    assert EpsilonIncrement(c) == -0.0000158;
  }

  /** A call the agent makes on its game. */
  datatype GameCall = ResetGame | StepGame(action: Action)

  /**
   * What one `playStep` receives from outside: the state `getState()`
   * returns, the draw of `Math.random()`, the action `getRandomAction()`
   * would return, the action the online network ranks best, and the
   * `{state, reward, done, fruitEaten}` record `game.step(action)` returns.
   */
  datatype StepInput = StepInput(
    observed: GameState,
    draw: real,
    randomAction: Action,
    greedyAction: Action,
    nextState: GameState,
    reward: real,
    done: bool,
    fruitEaten: bool)

  /** The record `playStep` returns. */
  datatype StepOutput = StepOutput(action: Action, cumulativeReward: real, done: bool, fruitsEaten: nat)

  /**
   * Everything of the agent that changes: the frame counter, the rate used
   * by the last step (undefined before the first one), the episode
   * accumulators, the replay memory, the calls made on the game and the
   * weights of the two networks.
   */
  datatype AgentState = AgentState(
    frameCount: nat,
    epsilon: Option<real>,
    cumulativeReward: real,
    fruitsEaten: nat,
    memory: seq<Transition>,
    game: seq<GameCall>,
    online: Weights,
    target: Weights)

  datatype StepResult = StepResult(agent: AgentState, output: StepOutput)

  /** `reset()`: both accumulators back to 0 and the game reset. */
  function ResetEpisode(s: AgentState): (r: AgentState)
    ensures r.cumulativeReward == 0.0 && r.fruitsEaten == 0
    ensures r.game == s.game + [ResetGame]
    ensures r == s.(cumulativeReward := r.cumulativeReward, fruitsEaten := r.fruitsEaten, game := r.game)
  {
    s.(cumulativeReward := 0.0, fruitsEaten := 0, game := s.game + [ResetGame])
  }

  /** The agent the constructor builds: no frames, no memory, and a reset game. */
  function Initial(c: AgentConfig, online: Weights, target: Weights): (s: AgentState)
    ensures s.frameCount == 0 && s.epsilon == None && s.memory == []
    ensures s.cumulativeReward == 0.0 && s.fruitsEaten == 0 && s.game == [ResetGame]
  {
    ResetEpisode(AgentState(0, None, 0.0, 0, [], [], online, target))
  }

  /** The epsilon-greedy choice: the random action exactly when the draw is below the rate. */
  function ChooseAction(epsilon: real, input: StepInput): (a: Action)
    ensures input.draw < epsilon ==> a == input.randomAction
    ensures !(input.draw < epsilon) ==> a == input.greedyAction
  {
    if input.draw < epsilon then input.randomAction else input.greedyAction
  }

  /**
   * `playStep()`: the rate is computed from the frame counter before it is
   * incremented; the transition records the state observed before the move;
   * the output carries the accumulators after this step and before the
   * reset that a finished episode triggers.
   */
  function Step(c: AgentConfig, s: AgentState, input: StepInput): (r: StepResult)
    ensures r.agent.frameCount == s.frameCount + 1
    ensures r.agent.epsilon == Some(Epsilon(c, s.frameCount))
    ensures r.output.action == ChooseAction(Epsilon(c, s.frameCount), input)
    ensures r.agent.memory == s.memory + [Transition(input.observed, r.output.action, input.reward, input.done, input.nextState)]
    ensures r.output.cumulativeReward == s.cumulativeReward + input.reward
    ensures r.output.fruitsEaten == s.fruitsEaten + (if input.fruitEaten then 1 else 0)
    ensures r.output.done == input.done
    ensures input.done ==> r.agent.cumulativeReward == 0.0 && r.agent.fruitsEaten == 0
    ensures input.done ==> r.agent.game == s.game + [StepGame(r.output.action), ResetGame]
    ensures !input.done ==> r.agent.cumulativeReward == r.output.cumulativeReward
    ensures !input.done ==> r.agent.fruitsEaten == r.output.fruitsEaten
    ensures !input.done ==> r.agent.game == s.game + [StepGame(r.output.action)]
    ensures r.agent.online == s.online && r.agent.target == s.target
  {
    var epsilon := Epsilon(c, s.frameCount);
    var action := ChooseAction(epsilon, input);
    var cumulativeReward := s.cumulativeReward + input.reward;
    var fruitsEaten := s.fruitsEaten + (if input.fruitEaten then 1 else 0);
    var stepped := s.(
      frameCount := s.frameCount + 1,
      epsilon := Some(epsilon),
      cumulativeReward := cumulativeReward,
      fruitsEaten := fruitsEaten,
      memory := s.memory + [Transition(input.observed, action, input.reward, input.done, input.nextState)],
      game := s.game + [StepGame(action)]);
    var output := StepOutput(action, cumulativeReward, input.done, fruitsEaten);
    StepResult(if input.done then ResetEpisode(stepped) else stepped, output)
  }

  datatype RunResult = RunResult(agent: AgentState, outputs: seq<StepOutput>)

  /** `playStep()` called once per input, in order. */
  function Run(c: AgentConfig, s: AgentState, inputs: seq<StepInput>): (r: RunResult)
    ensures |r.outputs| == |inputs|
    ensures r.agent.frameCount == s.frameCount + |inputs|
    ensures r.agent.online == s.online && r.agent.target == s.target
    decreases |inputs|
  {
    if inputs == [] then RunResult(s, [])
    else
      var before := Run(c, s, inputs[..|inputs| - 1]);
      var step := Step(c, before.agent, inputs[|inputs| - 1]);
      RunResult(step.agent, before.outputs + [step.output])
  }

  /** The transition the step with this input and output hands to the replay memory. */
  function Recorded(input: StepInput, output: StepOutput): Transition
  {
    Transition(input.observed, output.action, input.reward, input.done, input.nextState)
  }

  /**
   * Over a run, step i explores exactly when its draw is below the rate for
   * frame s.frameCount + i, and the replay memory grows by exactly one
   * transition per step, in order.
   */
  lemma {:induction false} RunSteps(c: AgentConfig, s: AgentState, inputs: seq<StepInput>)
    ensures var r := Run(c, s, inputs);
      && (forall i | 0 <= i < |inputs| ::
            r.outputs[i].action == ChooseAction(Epsilon(c, s.frameCount + i), inputs[i]))
      && |r.agent.memory| == |s.memory| + |inputs|
      && r.agent.memory[..|s.memory|] == s.memory
      && (forall i | 0 <= i < |inputs| :: r.agent.memory[|s.memory| + i] == Recorded(inputs[i], r.outputs[i]))
    decreases |inputs|
  {
    if inputs != [] {
      var init := inputs[..|inputs| - 1];
      RunSteps(c, s, init);
      var before := Run(c, s, init);
      var r := Run(c, s, inputs);
      forall i | 0 <= i < |inputs|
        ensures r.outputs[i].action == ChooseAction(Epsilon(c, s.frameCount + i), inputs[i])
        ensures r.agent.memory[|s.memory| + i] == Recorded(inputs[i], r.outputs[i])
      {
        if i < |init| {
          assert inputs[i] == init[i];
          assert r.outputs[i] == before.outputs[i];
          assert r.agent.memory[|s.memory| + i] == before.agent.memory[|s.memory| + i];
        }
      }
    }
  }

  /** No step of the inputs finished an episode. */
  predicate NoneDone(inputs: seq<StepInput>)
  {
    forall i | 0 <= i < |inputs| :: !inputs[i].done
  }

  /** The sum of the rewards of the inputs. */
  function RewardSum(inputs: seq<StepInput>): real
    decreases |inputs|
  {
    if inputs == [] then 0.0 else RewardSum(inputs[..|inputs| - 1]) + inputs[|inputs| - 1].reward
  }

  /** The number of inputs on which a fruit was eaten. */
  function FruitCount(inputs: seq<StepInput>): nat
    decreases |inputs|
  {
    if inputs == [] then 0 else FruitCount(inputs[..|inputs| - 1]) + (if inputs[|inputs| - 1].fruitEaten then 1 else 0)
  }

  /** The rewards of the steps after the last one that finished an episode. */
  function OpenReward(inputs: seq<StepInput>): real
    decreases |inputs|
  {
    if inputs == [] || inputs[|inputs| - 1].done then 0.0
    else OpenReward(inputs[..|inputs| - 1]) + inputs[|inputs| - 1].reward
  }

  /** The fruits eaten in the steps after the last one that finished an episode. */
  function OpenFruits(inputs: seq<StepInput>): nat
    decreases |inputs|
  {
    if inputs == [] || inputs[|inputs| - 1].done then 0
    else OpenFruits(inputs[..|inputs| - 1]) + (if inputs[|inputs| - 1].fruitEaten then 1 else 0)
  }

  /**
   * After a run the accumulators hold the rewards and fruits of the steps
   * since the last finished episode only, added to the old ones when no
   * episode finished.
   */
  lemma {:induction false} RunEpisodeTotals(c: AgentConfig, s: AgentState, inputs: seq<StepInput>)
    ensures var r := Run(c, s, inputs);
      && r.agent.cumulativeReward == (if NoneDone(inputs) then s.cumulativeReward else 0.0) + OpenReward(inputs)
      && r.agent.fruitsEaten == (if NoneDone(inputs) then s.fruitsEaten else 0) + OpenFruits(inputs)
    decreases |inputs|
  {
    if inputs != [] {
      var init := inputs[..|inputs| - 1];
      RunEpisodeTotals(c, s, init);
      assert NoneDone(inputs) <==> NoneDone(init) && !inputs[|inputs| - 1].done by {
        assert forall i | 0 <= i < |init| :: init[i] == inputs[i];
      }
    }
  }

  /** Within one episode the open totals are the plain totals. */
  lemma {:induction false} OpenTotalsWithinEpisode(inputs: seq<StepInput>)
    requires NoneDone(inputs)
    ensures OpenReward(inputs) == RewardSum(inputs) && OpenFruits(inputs) == FruitCount(inputs)
    decreases |inputs|
  {
    if inputs != [] {
      var init := inputs[..|inputs| - 1];
      assert forall i | 0 <= i < |init| :: init[i] == inputs[i];
      OpenTotalsWithinEpisode(init);
    }
  }

  /** The record of the step that ends an episode carries the sums of that episode's rewards and fruits. */
  lemma EpisodeReward(c: AgentConfig, s: AgentState, inputs: seq<StepInput>)
    requires s.cumulativeReward == 0.0 && s.fruitsEaten == 0
    requires |inputs| > 0 && inputs[|inputs| - 1].done
    requires NoneDone(inputs[..|inputs| - 1])
    ensures var out := Run(c, s, inputs).outputs[|inputs| - 1];
      out.done && out.cumulativeReward == RewardSum(inputs) && out.fruitsEaten == FruitCount(inputs)
  {
    var init := inputs[..|inputs| - 1];
    RunEpisodeTotals(c, s, init);
    OpenTotalsWithinEpisode(init);
  }

  /**
   * What `trainOnReplayBatch` receives from outside: the sample of the
   * replay memory, the two networks' outputs on it, and the online weights
   * the optimizer produces from the loss's gradients.
   */
  datatype TrainingBatch = TrainingBatch(
    sample: seq<Transition>,
    onlineOutputs: seq<seq<real>>,
    targetOutputs: seq<seq<real>>,
    updatedWeights: Weights)

  predicate WellShaped(tb: TrainingBatch)
  {
    Shaped(tb.sample, tb.onlineOutputs, tb.targetOutputs)
  }

  /** A batch whose tensors have the shapes the networks give them. */
  type ShapedBatch = tb: TrainingBatch | WellShaped(tb) witness TrainingBatch([], [], [], [])

  /** The loss the training step minimises on this batch. */
  function TrainingLoss(tb: TrainingBatch, gamma: real): (loss: Option<real>)
    requires WellShaped(tb)
    ensures loss.None? <==> tb.sample == []
  {
    BatchLoss(tb.sample, tb.onlineOutputs, tb.targetOutputs, gamma)
  }

  /** The training step replaces the online weights only; the target network is frozen. */
  function TrainOnBatch(s: AgentState, tb: TrainingBatch): (r: AgentState)
    ensures r.online == tb.updatedWeights
    ensures r == s.(online := tb.updatedWeights)
  {
    s.(online := tb.updatedWeights)
  }

  /** The agent object, whose fields `reset`, `playStep` and `trainOnReplayBatch` update in place. */
  class SnakeGameAgent {
    const epsilonInit: real
    const epsilonFinal: real
    const epsilonDecayFrames: nat
    const replayBufferSize: nat
    /** `epsilonIncrement_`, fixed with the rates. */
    const epsilonIncrement: real := EpsilonIncrement(AgentConfig(epsilonInit, epsilonFinal, epsilonDecayFrames, replayBufferSize))

    var frameCount: nat
    var epsilon: Option<real>
    var cumulativeReward: real
    var fruitsEaten: nat
    var replayMemory: seq<Transition>
    var game: seq<GameCall>
    var onlineWeights: Weights
    var targetWeights: Weights

    function Config(): AgentConfig
    {
      AgentConfig(epsilonInit, epsilonFinal, epsilonDecayFrames, replayBufferSize)
    }

    function State(): AgentState
      reads this
    {
      AgentState(frameCount, epsilon, cumulativeReward, fruitsEaten, replayMemory, game, onlineWeights, targetWeights)
    }

    /** `new SnakeGameAgent(game, config)` with the two networks' initial weights. */
    constructor (config: AgentConfig, initialOnline: Weights, initialTarget: Weights)
      ensures Config() == config
      ensures State() == Initial(config, initialOnline, initialTarget)
    {
      epsilonInit := config.epsilonInit;
      epsilonFinal := config.epsilonFinal;
      epsilonDecayFrames := config.epsilonDecayFrames;
      onlineWeights := initialOnline;
      targetWeights := initialTarget;
      replayBufferSize := config.replayBufferSize;
      replayMemory := [];
      frameCount := 0;
      epsilon := None;
      game := [];
      new;
      Reset();
    }

    /** `reset()` */
    method Reset()
      modifies this
      ensures State() == ResetEpisode(old(State()))
    {
      cumulativeReward := 0.0;
      fruitsEaten := 0;
      game := game + [ResetGame];
    }

    /** `playStep()` */
    method PlayStep(input: StepInput) returns (output: StepOutput)
      modifies this
      ensures Step(Config(), old(State()), input) == StepResult(State(), output)
    {
      var rate := if frameCount >= epsilonDecayFrames then epsilonFinal
                  else epsilonInit + epsilonIncrement * frameCount as real;
      epsilon := Some(rate);
      frameCount := frameCount + 1;
      var action;
      if input.draw < rate {
        action := input.randomAction;
      } else {
        action := input.greedyAction;
      }
      game := game + [StepGame(action)];
      replayMemory := replayMemory + [Transition(input.observed, action, input.reward, input.done, input.nextState)];
      cumulativeReward := cumulativeReward + input.reward;
      if input.fruitEaten {
        fruitsEaten := fruitsEaten + 1;
      }
      output := StepOutput(action, cumulativeReward, input.done, fruitsEaten);
      if input.done {
        Reset();
      }
    }

    /**
     * `trainOnReplayBatch(batchSize, gamma, optimizer)`: the online network
     * takes the optimizer's weights; the loss of the batch is returned.
     */
    method TrainOnReplayBatch(gamma: real, tb: TrainingBatch) returns (loss: Option<real>)
      requires WellShaped(tb)
      modifies this`onlineWeights
      ensures State() == TrainOnBatch(old(State()), tb)
      ensures loss == TrainingLoss(tb, gamma)
    {
      loss := BatchLoss(tb.sample, tb.onlineOutputs, tb.targetOutputs, gamma);
      onlineWeights := tb.updatedWeights;
    }
  }
}
