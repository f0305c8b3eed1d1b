/**
 * The arithmetic of `trainOnReplayBatch` in agent.js: the Q-learning
 * targets, the selection of the taken action's value through a one-hot
 * mask, and the mean-squared-error loss. Network outputs are inputs here;
 * tensors become sequences of reals and rounding is not modelled.
 */
module QLearning {
  import opened Wrappers
  import opened Experience

  /** `1 - done` as a float: 0 for a terminal example, 1 otherwise. */
  function DoneMask(done: bool): real
  {
    1.0 - (if done then 1.0 else 0.0)
  }

  /**
   * `reward + nextMaxQ * (1 - done) * gamma`. A terminal example's target is
   * its reward exactly; any other adds the discounted best next value.
   */
  function TargetQ(reward: real, nextMaxQ: real, done: bool, gamma: real): (t: real)
    ensures done ==> t == reward
    ensures !done ==> t == reward + gamma * nextMaxQ
  {
    reward + nextMaxQ * DoneMask(done) * gamma
  }

  /** `max(-1)` on one row of the target network's output. */
  function RowMax(row: seq<real>): (m: real)
    requires |row| > 0
    ensures m in row
    ensures forall x | x in row :: x <= m
    decreases |row|
  {
    if |row| == 1 then row[0]
    else
      var rest := RowMax(row[1..]);
      assert forall x | x in row :: x == row[0] || x in row[1..];
      if row[0] >= rest then row[0] else rest
  }

  /** `tf.oneHot(a, n)`: 1 at position a and 0 elsewhere; all zeros when a is out of range. */
  function OneHot(a: int, n: nat): (h: seq<real>)
    ensures |h| == n
  {
    seq(n, j => if j == a then 1.0 else 0.0)
  }

  /** `row.mul(mask).sum(-1)`: the sum of the element-wise products. */
  function MaskedSum(row: seq<real>, mask: seq<real>): real
    requires |row| == |mask|
    decreases |row|
  {
    if |row| == 0 then 0.0 else row[0] * mask[0] + MaskedSum(row[1..], mask[1..])
  }

  /** Multiplying by a one-hot mask and summing picks out one entry. */
  lemma {:induction false} MaskedSumOneHot(row: seq<real>, a: int)
    ensures MaskedSum(row, OneHot(a, |row|)) == if 0 <= a < |row| then row[a] else 0.0
    decreases |row|
  {
    if |row| > 0 {
      assert OneHot(a, |row|)[1..] == OneHot(a - 1, |row| - 1);
      MaskedSumOneHot(row[1..], a - 1);
    }
  }

  /**
   * The online network's value for the taken action: its output row times
   * `oneHot(action, NUM_ACTIONS)`, summed. The row has NUM_ACTIONS entries,
   * so the mask has the row's length.
   */
  function SelectedQ(row: seq<real>, action: Action): (q: real)
    ensures q == if action < |row| then row[action] else 0.0
  {
    MaskedSumOneHot(row, action);
    MaskedSum(row, OneHot(action, |row|))
  }

  /** The predicted values `qs`, one per example of the batch. */
  function Predictions(batch: seq<Transition>, onlineOut: seq<seq<real>>): (qs: seq<real>)
    requires |onlineOut| == |batch|
    ensures |qs| == |batch|
    ensures forall i | 0 <= i < |batch| ::
              qs[i] == if batch[i].action < |onlineOut[i]| then onlineOut[i][batch[i].action] else 0.0
  {
    seq(|batch|, i requires 0 <= i < |batch| => SelectedQ(onlineOut[i], batch[i].action))
  }

  /** The targets `targetQs`, one per example, from the target network's output rows. */
  function Targets(batch: seq<Transition>, targetOut: seq<seq<real>>, gamma: real): (ts: seq<real>)
    requires |targetOut| == |batch|
    requires forall i | 0 <= i < |targetOut| :: |targetOut[i]| > 0
    ensures |ts| == |batch|
    ensures forall i | 0 <= i < |batch| :: batch[i].done ==> ts[i] == batch[i].reward
    ensures forall i | 0 <= i < |batch| ::
              !batch[i].done ==> ts[i] == batch[i].reward + gamma * RowMax(targetOut[i])
  {
    seq(|batch|, i requires 0 <= i < |batch| =>
      TargetQ(batch[i].reward, RowMax(targetOut[i]), batch[i].done, gamma))
  }

  /** The distance between a target and a prediction. */
  function Distance(t: real, p: real): (d: real)
    ensures d >= 0.0 && (d == 0.0 <==> t == p)
  {
    if t < p then p - t else t - p
  }

  lemma MulPositive(x: real, y: real)
    requires x > 0.0 && y > 0.0
    ensures x * y > 0.0
  {
  }

  /**
   * The squared error of one example, written as the distance times itself
   * (the distance from t to p, times the distance from p to t). It is never
   * negative and it is 0 exactly when the prediction equals the target.
   */
  function SquaredError(t: real, p: real): (e: real)
    ensures e >= 0.0
    ensures e == 0.0 <==> t == p
  {
    var d := Distance(t, p);
    var d' := Distance(p, t);
    if d > 0.0 then MulPositive(d, d'); d * d' else 0.0
  }

  /** The squared error is the square of the difference. */
  lemma SquaredErrorIsSquare(t: real, p: real)
    ensures SquaredError(t, p) == (t - p) * (t - p)
  {
  }

  /** The sum of squared differences. */
  function SquaredErrorSum(ts: seq<real>, ps: seq<real>): real
    requires |ts| == |ps|
    decreases |ts|
  {
    if |ts| == 0 then 0.0 else SquaredError(ts[0], ps[0]) + SquaredErrorSum(ts[1..], ps[1..])
  }

  /** A sum of squares is never negative, and it is 0 exactly when the sequences agree. */
  lemma {:induction false} SquaredErrorSumZero(ts: seq<real>, ps: seq<real>)
    requires |ts| == |ps|
    ensures SquaredErrorSum(ts, ps) >= 0.0
    ensures SquaredErrorSum(ts, ps) == 0.0 <==> ts == ps
    decreases |ts|
  {
    if |ts| > 0 {
      SquaredErrorSumZero(ts[1..], ps[1..]);
      assert ts == [ts[0]] + ts[1..];
      assert ps == [ps[0]] + ps[1..];
    }
  }

  /**
   * `tf.losses.meanSquaredError(targets, predictions)`: the mean of the
   * squared differences. Over an empty batch the mean is NaN (None).
   */
  function MeanSquaredError(ts: seq<real>, ps: seq<real>): (r: Option<real>)
    requires |ts| == |ps|
    ensures r.None? <==> |ts| == 0
    ensures r.Some? ==> r.value >= 0.0
    ensures r.Some? ==> (r.value == 0.0 <==> ts == ps)
  {
    if |ts| == 0 then None
    else
      SquaredErrorSumZero(ts, ps);
      Some(SquaredErrorSum(ts, ps) / |ts| as real)
  }

  /** The tensors have the shapes the networks' contract gives them. */
  predicate Shaped(batch: seq<Transition>, onlineOut: seq<seq<real>>, targetOut: seq<seq<real>>)
  {
    && |onlineOut| == |batch|
    && |targetOut| == |batch|
    && forall i | 0 <= i < |targetOut| :: |targetOut[i]| > 0
  }

  /**
   * The loss `lossFunction` returns: the mean squared error between the
   * targets and the online network's values for the taken actions.
   */
  function BatchLoss(batch: seq<Transition>, onlineOut: seq<seq<real>>, targetOut: seq<seq<real>>, gamma: real)
    : (loss: Option<real>)
    requires Shaped(batch, onlineOut, targetOut)
    ensures loss.None? <==> batch == []
    ensures loss.Some? ==> loss.value >= 0.0
    ensures loss.Some? ==>
              (loss.value == 0.0 <==> Predictions(batch, onlineOut) == Targets(batch, targetOut, gamma))
  {
    MeanSquaredError(Targets(batch, targetOut, gamma), Predictions(batch, onlineOut))
  }

  /**
   * The target network's output only matters for non-terminal examples: two
   * target outputs that agree on every non-terminal row give the same loss.
   */
  lemma TerminalTargetsIgnoreTargetNetwork(
    batch: seq<Transition>, onlineOut: seq<seq<real>>,
    targetOut1: seq<seq<real>>, targetOut2: seq<seq<real>>, gamma: real)
    requires Shaped(batch, onlineOut, targetOut1) && Shaped(batch, onlineOut, targetOut2)
    requires forall i | 0 <= i < |batch| :: !batch[i].done ==> targetOut1[i] == targetOut2[i]
    ensures BatchLoss(batch, onlineOut, targetOut1, gamma) == BatchLoss(batch, onlineOut, targetOut2, gamma)
  {
    var t1 := Targets(batch, targetOut1, gamma);
    var t2 := Targets(batch, targetOut2, gamma);
    forall i | 0 <= i < |batch| ensures t1[i] == t2[i] {
      if !batch[i].done {
        assert targetOut1[i] == targetOut2[i];
      }
    }
    assert t1 == t2;
  }

  /** gamma = 0.9, reward = 1, best next value 2: 2.8 when not done, exactly 1 when done. */
  lemma TargetExample(anyNextMaxQ: real)
    ensures TargetQ(1.0, 2.0, false, 0.9) == 2.8
    ensures TargetQ(1.0, anyNextMaxQ, true, 0.9) == 1.0
  {
  }
}
