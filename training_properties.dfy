/**
 * What the control logic of `train` guarantees over a whole run, read off
 * the event log: the order of the calls, the contents of the two moving
 * averagers, the best-average tracker, the frame counter and the reason
 * the loop stopped.
 */
module TrainingProperties {
  import opened Wrappers
  import opened Experience
  import opened MovingAverage
  import opened Agent
  import opened Training

  /** The number of `playStep` calls the log records. */
  function PlayedCount(ev: seq<Event>): nat
    decreases |ev|
  {
    if ev == [] then 0 else PlayedCount(ev[..|ev| - 1]) + (if ev[|ev| - 1].Played? then 1 else 0)
  }

  /** The number of `trainOnReplayBatch` calls the log records. */
  function TrainedCount(ev: seq<Event>): nat
    decreases |ev|
  {
    if ev == [] then 0 else TrainedCount(ev[..|ev| - 1]) + (if ev[|ev| - 1].Trained? then 1 else 0)
  }

  /** The cumulative rewards of the finished episodes, in the order they finished. */
  function EpisodeRewards(ev: seq<Event>): seq<real>
    decreases |ev|
  {
    if ev == [] then []
    else
      var e := ev[|ev| - 1];
      EpisodeRewards(ev[..|ev| - 1]) + (if e.Played? && e.output.done then [e.output.cumulativeReward] else [])
  }

  /** The fruit counts of the finished episodes, in the order they finished. */
  function EpisodeFruits(ev: seq<Event>): seq<real>
    decreases |ev|
  {
    if ev == [] then []
    else
      var e := ev[|ev| - 1];
      EpisodeFruits(ev[..|ev| - 1]) + (if e.Played? && e.output.done then [e.output.fruitsEaten as real] else [])
  }

  /** The averages recorded as new bests, in order. */
  function BestAverages(ev: seq<Event>): seq<real>
    decreases |ev|
  {
    if ev == [] then []
    else
      var e := ev[|ev| - 1];
      BestAverages(ev[..|ev| - 1]) + (if e.NewBest? then [e.average] else [])
  }

  /** The best average so far: the last one recorded, or -Infinity before any. */
  function LastBest(ev: seq<Event>): Best
  {
    var b := BestAverages(ev);
    if b == [] then MinusInfinity else Reached(b[|b| - 1])
  }

  predicate StrictlyIncreasing(xs: seq<real>)
  {
    forall i, j | 0 <= i < j < |xs| :: xs[i] < xs[j]
  }

  /**
   * Which event may come right after which: a game step only after a
   * training step, a new best only after a game step that finished an
   * episode, a sync only after a game step or a new best, and a training
   * step after anything but a training step.
   */
  predicate MayFollow(prev: Event, next: Event)
  {
    match next
    case Trained(_) => !prev.Trained?
    case Played(_) => prev.Trained?
    case NewBest(_, _) => prev.Played? && prev.output.done
    case Synced => prev.Played? || prev.NewBest?
  }

  predicate FollowsAt(ev: seq<Event>, i: nat)
    requires 0 < i < |ev|
  {
    MayFollow(ev[i - 1], ev[i])
  }

  /** A log whose first event is a training step and whose every event may follow the one before. */
  predicate Ordered(ev: seq<Event>)
  {
    && (|ev| > 0 ==> ev[0].Trained?)
    && forall i | 0 < i < |ev| :: FollowsAt(ev, i)
  }

  /**
   * The log is a sequence of loop iterations, each one training step, one
   * game step, then possibly a new best (only after a step that finished an
   * episode) and possibly a sync.
   */
  predicate LogShape(ev: seq<Event>)
  {
    Ordered(ev) && (|ev| > 0 ==> !ev[|ev| - 1].Trained?)
  }

  /** What LogShape says about each kind of event. */
  lemma LogShapeMeans(ev: seq<Event>)
    requires LogShape(ev)
    ensures forall i | 0 <= i < |ev| && ev[i].Trained? :: i + 1 < |ev| && ev[i + 1].Played?
    ensures forall i | 0 <= i < |ev| && ev[i].Played? :: 0 < i && ev[i - 1].Trained?
    ensures forall i | 0 <= i < |ev| && ev[i].NewBest? :: 0 < i && ev[i - 1].Played? && ev[i - 1].output.done
    ensures forall i | 0 <= i < |ev| && ev[i].Synced? :: 0 < i && (ev[i - 1].Played? || ev[i - 1].NewBest?)
  {
    forall i | 0 <= i < |ev| && ev[i].Trained? ensures i + 1 < |ev| && ev[i + 1].Played? {
      assert i + 1 < |ev|;
      assert FollowsAt(ev, i + 1);
    }
    forall i | 0 <= i < |ev| && !ev[i].Trained? ensures 0 < i && MayFollow(ev[i - 1], ev[i]) {
      assert 0 < i;
      assert FollowsAt(ev, i);
    }
  }

  /** Appending an event that may follow the last one keeps the log ordered. */
  lemma AppendOrdered(ev: seq<Event>, e: Event)
    requires Ordered(ev)
    requires if ev == [] then e.Trained? else MayFollow(ev[|ev| - 1], e)
    ensures Ordered(ev + [e])
  {
    var ev' := ev + [e];
    forall i | 0 < i < |ev'| ensures FollowsAt(ev', i) {
      if i < |ev| {
        assert ev'[i] == ev[i] && ev'[i - 1] == ev[i - 1];
        assert FollowsAt(ev, i);
      }
    }
  }

  /** A stopped loop stopped on a step that finished an episode, for the reason the stopping test gives. */
  predicate StoppedOnDone(p: Params, st: LoopState)
    requires |st.monitor.rewards| > 0
  {
    && |st.events| > 0
    && st.events[|st.events| - 1].Played?
    && st.events[|st.events| - 1].output.done
    && st.stop == StopTest(Average(st.monitor.rewards), st.agent.frameCount, p)
  }

  /**
   * What holds of every loop state reached from `LoopStart`, where `base`
   * is the frame counter at the start of the loop.
   */
  predicate Consistent(p: Params, st: LoopState, base: nat)
  {
    && |st.monitor.rewards| == AveragerLength
    && st.monitor.rewards == AppendAll(Nulls(AveragerLength), EpisodeRewards(st.events))
    && st.monitor.eaten == AppendAll(Nulls(AveragerLength), EpisodeFruits(st.events))
    && st.monitor.best == LastBest(st.events)
    && StrictlyIncreasing(BestAverages(st.events))
    && st.agent.frameCount == base + PlayedCount(st.events)
    && TrainedCount(st.events) == PlayedCount(st.events)
    && LogShape(st.events)
    && (st.stop.Some? ==> StoppedOnDone(p, st))
  }

  lemma DropLast(ev: seq<Event>, e: Event)
    ensures (ev + [e])[..|ev|] == ev
  {
  }

  /** The loop starts consistent: no events, empty windows, best -Infinity. */
  lemma StartConsistent(p: Params, agent: AgentState)
    ensures Consistent(p, LoopStart(agent), agent.frameCount)
  {
  }

  /** Appending a training step and the game step after it. */
  lemma AppendTrainPlay(p: Params, st: LoopState, base: nat, loss: Option<real>, out: StepOutput)
    requires Consistent(p, st, base) && st.stop.None?
    ensures var e1 := st.events + [Trained(loss)];
      var e2 := e1 + [Played(out)];
      && LogShape(e2)
      && PlayedCount(e2) == PlayedCount(st.events) + 1
      && TrainedCount(e2) == TrainedCount(st.events) + 1
      && BestAverages(e2) == BestAverages(st.events)
      && EpisodeRewards(e2) == EpisodeRewards(st.events) + (if out.done then [out.cumulativeReward] else [])
      && EpisodeFruits(e2) == EpisodeFruits(st.events) + (if out.done then [out.fruitsEaten as real] else [])
  {
    var e1 := st.events + [Trained(loss)];
    var e2 := e1 + [Played(out)];
    DropLast(st.events, Trained(loss));
    DropLast(e1, Played(out));
    AppendOrdered(st.events, Trained(loss));
    AppendOrdered(e1, Played(out));
  }

  /** Appending a new best right after the step that finished an episode. */
  lemma AppendNewBest(ev: seq<Event>, average: real, saved: bool)
    requires LogShape(ev) && |ev| > 0 && ev[|ev| - 1].Played? && ev[|ev| - 1].output.done
    ensures var ev' := ev + [NewBest(average, saved)];
      && LogShape(ev')
      && PlayedCount(ev') == PlayedCount(ev) && TrainedCount(ev') == TrainedCount(ev)
      && EpisodeRewards(ev') == EpisodeRewards(ev) && EpisodeFruits(ev') == EpisodeFruits(ev)
      && BestAverages(ev') == BestAverages(ev) + [average]
  {
    DropLast(ev, NewBest(average, saved));
    AppendOrdered(ev, NewBest(average, saved));
  }

  /** A value that exceeds the last of a strictly increasing sequence extends it. */
  lemma ExtendIncreasing(b: seq<real>, average: real)
    requires StrictlyIncreasing(b)
    requires b == [] || average > b[|b| - 1]
    ensures StrictlyIncreasing(b + [average])
  {
    var b' := b + [average];
    forall i, j | 0 <= i < j < |b'| ensures b'[i] < b'[j] {
      if j == |b| {
        assert b'[i] == b[i];
        if i < |b| - 1 {
          assert b[i] < b[|b| - 1];
        }
      } else {
        assert b'[i] == b[i] && b'[j] == b[j];
      }
    }
  }

  /** Appending a sync after a game step or a new best. */
  lemma AppendSynced(ev: seq<Event>)
    requires LogShape(ev) && |ev| > 0 && (ev[|ev| - 1].Played? || ev[|ev| - 1].NewBest?)
    ensures var ev' := ev + [Synced];
      && LogShape(ev')
      && PlayedCount(ev') == PlayedCount(ev) && TrainedCount(ev') == TrainedCount(ev)
      && EpisodeRewards(ev') == EpisodeRewards(ev) && EpisodeFruits(ev') == EpisodeFruits(ev)
      && BestAverages(ev') == BestAverages(ev)
  {
    DropLast(ev, Synced);
    AppendOrdered(ev, Synced);
  }

  /** A sync keeps a running loop consistent. */
  lemma SynchroniseConsistent(p: Params, st: LoopState, base: nat)
    requires Consistent(p, st, base) && st.stop.None?
    requires |st.events| > 0 && (st.events[|st.events| - 1].Played? || st.events[|st.events| - 1].NewBest?)
    ensures Consistent(p, Synchronise(p, st), base)
  {
    if SyncDue(st.agent.frameCount, p.syncEveryFrames) {
      AppendSynced(st.events);
    }
  }

  lemma WindowSnoc(xs: seq<real>, x: real)
    ensures AppendAll(Nulls(AveragerLength), xs + [x]) == Appended(AppendAll(Nulls(AveragerLength), xs), x)
  {
    assert (xs + [x])[..|xs|] == xs;
  }

  /** Recording a new best right after the step that finished an episode keeps a running loop consistent. */
  lemma NewBestConsistent(p: Params, st: LoopState, base: nat, average: real)
    requires Consistent(p, st, base) && st.stop.None?
    requires |st.events| > 0 && st.events[|st.events| - 1].Played? && st.events[|st.events| - 1].output.done
    requires Exceeds(average, st.monitor.best)
    ensures Consistent(p, LoopState(st.agent, st.monitor.(best := Reached(average)),
                                    st.events + [NewBest(average, p.hasSavePath)], None), base)
  {
    AppendNewBest(st.events, average, p.hasSavePath);
    var b := BestAverages(st.events);
    assert b == [] || average > b[|b| - 1];
    ExtendIncreasing(b, average);
  }

  /** The loop state right after the training step and the game step, before any decision. */
  function Stepped(st: LoopState, loss: Option<real>, step: StepResult): LoopState
  {
    var out := step.output;
    LoopState(step.agent,
              if out.done
              then Monitor(Appended(st.monitor.rewards, out.cumulativeReward),
                           Appended(st.monitor.eaten, out.fruitsEaten as real), st.monitor.best)
              else st.monitor,
              st.events + [Trained(loss), Played(out)], None)
  }

  /** Recording the two steps keeps a running loop consistent. */
  lemma SteppedConsistent(p: Params, st: LoopState, base: nat, loss: Option<real>, step: StepResult)
    requires Consistent(p, st, base) && st.stop.None?
    requires step.agent.frameCount == st.agent.frameCount + 1
    ensures Consistent(p, Stepped(st, loss, step), base)
  {
    var out := step.output;
    AppendTrainPlay(p, st, base, loss, out);
    assert st.events + [Trained(loss), Played(out)] == st.events + [Trained(loss)] + [Played(out)];
    if out.done {
      WindowSnoc(EpisodeRewards(st.events), out.cumulativeReward);
      WindowSnoc(EpisodeFruits(st.events), out.fruitsEaten as real);
    } else {
      assert EpisodeRewards(st.events) + [] == EpisodeRewards(st.events);
      assert EpisodeFruits(st.events) + [] == EpisodeFruits(st.events);
    }
  }

  /** The rest of the loop body after a game step that counted one frame keeps the loop consistent. */
  lemma AfterStepConsistent(p: Params, st: LoopState, base: nat, loss: Option<real>, step: StepResult)
    requires Consistent(p, st, base) && st.stop.None?
    requires step.agent.frameCount == st.agent.frameCount + 1
    ensures Consistent(p, AfterStep(p, st, loss, step), base)
  {
    var mid := Stepped(st, loss, step);
    SteppedConsistent(p, st, base, loss, step);
    assert mid.events[|mid.events| - 1] == Played(step.output);
    if step.output.done {
      var average := Average(mid.monitor.rewards);
      var stop := StopTest(average, step.agent.frameCount, p);
      if stop.Some? {
        assert AfterStep(p, st, loss, step) == mid.(stop := stop);
      } else if Exceeds(average, st.monitor.best) {
        NewBestConsistent(p, mid, base, average);
        SynchroniseConsistent(p, LoopState(mid.agent, mid.monitor.(best := Reached(average)),
                                           mid.events + [NewBest(average, p.hasSavePath)], None), base);
      } else {
        SynchroniseConsistent(p, mid, base);
      }
    } else {
      SynchroniseConsistent(p, mid, base);
    }
  }

  /** One run of the loop body keeps the loop consistent. */
  lemma IterateConsistent(c: AgentConfig, p: Params, st: LoopState, tb: ShapedBatch, input: StepInput, base: nat)
    requires Consistent(p, st, base)
    ensures Consistent(p, Iterate(c, p, st, tb, input), base)
  {
    if st.stop.None? {
      AfterStepConsistent(p, st, base, TrainingLoss(tb, p.gamma), Step(c, TrainOnBatch(st.agent, tb), input));
    }
  }

  /** One more run of the loop body keeps a consistent loop state consistent. */
  lemma LoopStepConsistent(
    c: AgentConfig, p: Params, st: LoopState, batches: seq<ShapedBatch>, inputs: seq<StepInput>, m: nat, base: nat)
    requires m < |batches| && m < |inputs|
    requires Consistent(p, Loop(c, p, st, batches, inputs, m), base)
    ensures Consistent(p, Loop(c, p, st, batches, inputs, m + 1), base)
  {
    IterateConsistent(c, p, Loop(c, p, st, batches, inputs, m), batches[m], inputs[m], base);
  }

  /** Every state the loop reaches from a consistent one is consistent. */
  lemma {:induction false} LoopConsistent(
    c: AgentConfig, p: Params, st: LoopState, batches: seq<ShapedBatch>, inputs: seq<StepInput>, n: nat, base: nat)
    requires n <= |batches| && n <= |inputs|
    requires Consistent(p, st, base)
    ensures Consistent(p, Loop(c, p, st, batches, inputs, n), base)
    decreases n
  {
    if n > 0 {
      LoopConsistent(c, p, st, batches, inputs, n - 1, base);
      LoopStepConsistent(c, p, st, batches, inputs, n - 1, base);
    }
  }

  /**
   * The decisions of one run of the loop body, after the training step and
   * the game step it always starts with: the loop stops exactly on a step
   * that finished an episode with the average at the threshold or the frame
   * cap reached; the best average changes exactly when the loop goes on
   * after an episode whose average is strictly above it (always, against
   * -Infinity); the target network takes the online weights exactly when the
   * loop goes on and the frame counter is a multiple of syncEveryFrames.
   */
  lemma IterateDecisions(c: AgentConfig, p: Params, st: LoopState, tb: ShapedBatch, input: StepInput)
    requires st.stop.None?
    ensures var step := Step(c, TrainOnBatch(st.agent, tb), input);
      var out := step.output;
      var average := Average(Appended(st.monitor.rewards, out.cumulativeReward));
      var r := Iterate(c, p, st, tb, input);
      var n := |st.events|;
      && n + 2 <= |r.events|
      && r.events[..n + 2] == st.events + [Trained(TrainingLoss(tb, p.gamma)), Played(out)]
      && r.agent.frameCount == st.agent.frameCount + 1
      && (r.stop.Some? <==> out.done && (average >= p.cumulativeRewardThreshold || r.agent.frameCount >= p.maxNumFrames))
      && (r.stop.Some? ==> |r.events| == n + 2 && r.monitor.best == st.monitor.best)
      && (r.monitor.best != st.monitor.best <==> r.stop.None? && out.done && Exceeds(average, st.monitor.best))
      && (r.monitor.best != st.monitor.best ==>
            r.monitor.best == Reached(average) && r.events[n + 2] == NewBest(average, p.hasSavePath))
      && (st.monitor.best == MinusInfinity && out.done && r.stop.None? ==> r.monitor.best == Reached(average))
      && (r.events[|r.events| - 1] == Synced <==> r.stop.None? && SyncDue(r.agent.frameCount, p.syncEveryFrames))
      && r.agent.online == tb.updatedWeights
      && r.agent.target == (if r.events[|r.events| - 1] == Synced then tb.updatedWeights else st.agent.target)
  {
    var step := Step(c, TrainOnBatch(st.agent, tb), input);
    var out := step.output;
    var events := st.events + [Trained(TrainingLoss(tb, p.gamma)), Played(out)];
    var n := |st.events|;
    assert events[..n + 2] == events;
    if out.done {
      var rewards := Appended(st.monitor.rewards, out.cumulativeReward);
      var average := Average(rewards);
      if StopTest(average, step.agent.frameCount, p).None? && Exceeds(average, st.monitor.best) {
        var ev := events + [NewBest(average, p.hasSavePath)];
        assert ev[..n + 2] == events;
        assert (ev + [Synced])[..n + 2] == events;
      } else {
        assert (events + [Synced])[..n + 2] == events;
      }
    } else {
      assert (events + [Synced])[..n + 2] == events;
    }
  }

  /** The facts a consistent final loop state gives about the whole log, warm-up included. */
  predicate RunFacts(p: Params, warmEvents: seq<Event>, events: seq<Event>, agent: AgentState, base: nat, outcome: Outcome)
  {
    var w := |warmEvents|;
    && w <= |events| && (forall i | 0 <= i < w :: events[i].Played?)
    && var loop := events[w..];
    && LogShape(loop)
    && TrainedCount(loop) == PlayedCount(loop)
    && StrictlyIncreasing(BestAverages(loop))
    && agent.frameCount == base + PlayedCount(loop)
    && (outcome.Stopped? ==>
          && |loop| > 0 && loop[|loop| - 1].Played? && loop[|loop| - 1].output.done
          && var window := AppendAll(Nulls(AveragerLength), EpisodeRewards(loop));
          && |window| > 0
          && Some(outcome.reason) == StopTest(Average(window), agent.frameCount, p))
  }

  lemma ConsistentRunFacts(p: Params, warmEvents: seq<Event>, final: LoopState, base: nat)
    requires Consistent(p, final, base)
    requires forall i | 0 <= i < |warmEvents| :: warmEvents[i].Played?
    ensures RunFacts(p, warmEvents, warmEvents + final.events, final.agent, base,
                     if final.stop.Some? then Stopped(final.stop.value) else OutOfInput)
  {
    var events := warmEvents + final.events;
    assert events[|warmEvents|..] == final.events;
    assert forall i | 0 <= i < |warmEvents| :: events[i] == warmEvents[i];
  }

  /**
   * `train` as a whole: the warm-up only plays (exactly replayBufferSize
   * steps when there are that many); every later state of the loop is
   * consistent, counting frames from the end of the warm-up; and a stopped
   * run stopped on a finished episode whose moving average, over the last
   * 100 episodes of the loop, or frame counter passed the stopping test.
   */
  lemma TrainProperties(c: AgentConfig, p: Params, s: AgentState, batches: seq<ShapedBatch>, inputs: seq<StepInput>)
    ensures var r := TrainSpec(c, p, s, batches, inputs);
      var w := c.replayBufferSize;
      && (|inputs| < w ==>
            && |r.events| == |inputs| && (forall i | 0 <= i < |inputs| :: r.events[i].Played?)
            && r.agent.frameCount == s.frameCount + |inputs| && r.outcome == OutOfInput)
      && (|inputs| >= w ==>
            && |PlayedAll(Run(c, s, inputs[..w]).outputs)| == w
            && RunFacts(p, PlayedAll(Run(c, s, inputs[..w]).outputs), r.events, r.agent, s.frameCount + w, r.outcome))
  {
    var w := c.replayBufferSize;
    if |inputs| >= w {
      var warm := Run(c, s, inputs[..w]);
      var rest := inputs[w..];
      var k := Min(|batches|, |rest|);
      var final := Loop(c, p, LoopStart(warm.agent), batches, rest, k);
      StartConsistent(p, warm.agent);
      LoopConsistent(c, p, LoopStart(warm.agent), batches, rest, k, warm.agent.frameCount);
      ConsistentRunFacts(p, PlayedAll(warm.outputs), final, warm.agent.frameCount);
    }
  }
}
