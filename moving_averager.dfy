/**
 * The `MovingAverager` of train.js: a fixed-length FIFO window of numbers,
 * pre-filled with `null`, whose average divides the sum of the window by
 * the full window length.
 */
module MovingAverage {
  import opened Wrappers

  /** One slot of the window: the `null` it is pre-filled with, or a number. */
  datatype Slot = Null | Num(value: real)

  /** The number a slot contributes under JavaScript's `+`: `null` counts as 0. */
  function ToNumber(s: Slot): real
  {
    match s
    case Null => 0.0
    case Num(v) => v
  }

  /** The window of a new averager: `bufferLength` empty slots. */
  function Nulls(n: nat): (b: seq<Slot>)
    ensures |b| == n && forall i | 0 <= i < n :: b[i] == Null
  {
    seq(n, _ => Null)
  }

  /** The numbers in a window, with every empty slot counted as 0 (reference definition). */
  function Sum(b: seq<Slot>): real
    decreases |b|
  {
    if b == [] then 0.0 else ToNumber(b[0]) + Sum(b[1..])
  }

  /**
   * `buffer.reduce((x, prev) => x + prev)` with no initial value: a left fold
   * that starts from the first slot. With one slot the fold returns that slot
   * itself; a `null` there still divides to 0, so it is read as a number.
   */
  function ReduceAdd(b: seq<Slot>): real
    requires |b| > 0
    decreases |b|
  {
    if |b| == 1 then ToNumber(b[0]) else ReduceAdd(b[..|b| - 1]) + ToNumber(b[|b| - 1])
  }

  lemma {:induction false} SumSnoc(b: seq<Slot>, s: Slot)
    ensures Sum(b + [s]) == Sum(b) + ToNumber(s)
    decreases |b|
  {
    if b == [] {
      assert [s][1..] == [];
    } else {
      assert (b + [s])[1..] == b[1..] + [s];
      SumSnoc(b[1..], s);
    }
  }

  /** The left fold of `reduce` adds up the same numbers as Sum. */
  lemma {:induction false} ReduceAddIsSum(b: seq<Slot>)
    requires |b| > 0
    ensures ReduceAdd(b) == Sum(b)
    decreases |b|
  {
    if |b| == 1 {
      assert b[1..] == [];
    } else {
      var init := b[..|b| - 1];
      ReduceAddIsSum(init);
      SumSnoc(init, b[|b| - 1]);
      assert init + [b[|b| - 1]] == b;
    }
  }

  /**
   * `average()`: the sum of the window over its full length. `reduce` on an
   * empty array throws, which is the None case.
   */
  function Mean(b: seq<Slot>): (r: Option<real>)
    ensures r.Some? <==> |b| > 0
    ensures r.Some? ==> r.value == Sum(b) / |b| as real
  {
    if |b| == 0 then None
    else
      ReduceAddIsSum(b);
      Some(ReduceAdd(b) / |b| as real)
  }

  /**
   * `append(x)`: `shift()` drops the oldest slot (and does nothing on an
   * empty window), then `push(x)` adds the newest one at the end.
   */
  function Appended(b: seq<Slot>, x: real): (r: seq<Slot>)
    ensures |b| > 0 ==> |r| == |b|
    ensures |b| == 0 ==> r == [Num(x)]
    ensures |r| > 0 && r[|r| - 1] == Num(x)
  {
    (if |b| > 0 then b[1..] else b) + [Num(x)]
  }

  /** The window after appending every value of xs in order. */
  function AppendAll(b: seq<Slot>, xs: seq<real>): seq<Slot>
    decreases |xs|
  {
    if xs == [] then b else Appended(AppendAll(b, xs[..|xs| - 1]), xs[|xs| - 1])
  }

  /** The appended values as slots. */
  function Nums(xs: seq<real>): (r: seq<Slot>)
    ensures |r| == |xs| && forall i | 0 <= i < |xs| :: r[i] == Num(xs[i])
  {
    seq(|xs|, i requires 0 <= i < |xs| => Num(xs[i]))
  }

  /**
   * A non-empty window keeps its length, and after appending xs it holds the
   * last |b| slots of the old window followed by the appended values.
   */
  lemma {:induction false} AppendAllWindow(b: seq<Slot>, xs: seq<real>)
    requires |b| > 0
    ensures AppendAll(b, xs) == (b + Nums(xs))[|xs|..]
    decreases |xs|
  {
    if xs != [] {
      var init := xs[..|xs| - 1];
      var x := xs[|xs| - 1];
      AppendAllWindow(b, init);
      var w := AppendAll(b, init);
      assert |w| == |b|;
      assert Appended(w, x) == w[1..] + [Num(x)];
      assert b + Nums(xs) == (b + Nums(init)) + [Num(x)];
      assert (b + Nums(xs))[|xs|..] == (b + Nums(init))[|init|..][1..] + [Num(x)];
    }
  }

  /**
   * After n or more appends to a window of length n, the window is exactly
   * the last n appended values, oldest first.
   */
  lemma LastAppendedValues(n: nat, b: seq<Slot>, xs: seq<real>)
    requires |b| == n > 0 && |xs| >= n
    ensures AppendAll(b, xs) == Nums(xs[|xs| - n..])
  {
    AppendAllWindow(b, xs);
    assert (b + Nums(xs))[|xs|..] == Nums(xs)[|xs| - n..];
  }

  /** A fresh window averages to 0, not NaN: every empty slot counts as 0. */
  lemma {:induction false} SumOfNulls(n: nat)
    ensures Sum(Nulls(n)) == 0.0
  {
    if n > 0 {
      assert Nulls(n)[1..] == Nulls(n - 1);
      SumOfNulls(n - 1);
    }
  }

  lemma {:induction false} SumOfNums(xs: seq<real>)
    ensures Sum(Nums(xs)) == ValuesSum(xs)
    decreases |xs|
  {
    if xs != [] {
      assert Nums(xs)[1..] == Nums(xs[1..]);
      SumOfNums(xs[1..]);
    }
  }

  /** The plain sum of a sequence of numbers. */
  function ValuesSum(xs: seq<real>): real
    decreases |xs|
  {
    if xs == [] then 0.0 else xs[0] + ValuesSum(xs[1..])
  }

  lemma {:induction false} SumConcat(a: seq<Slot>, b: seq<Slot>)
    ensures Sum(a + b) == Sum(a) + Sum(b)
    decreases |a|
  {
    if a == [] {
      assert a + b == b;
    } else {
      assert (a + b)[0] == a[0];
      assert (a + b)[1..] == a[1..] + b;
      SumConcat(a[1..], b);
    }
  }

  /** Fewer appends than the window length leave the oldest empty slots in front. */
  lemma FewAppendsWindow(n: nat, xs: seq<real>)
    requires 0 < n && |xs| <= n
    ensures AppendAll(Nulls(n), xs) == Nulls(n - |xs|) + Nums(xs)
  {
    AppendAllWindow(Nulls(n), xs);
    ShiftNulls(n, Nums(xs));
  }

  /** Dropping |ys| empty slots from the front of Nulls(n) + ys. */
  lemma ShiftNulls(n: nat, ys: seq<Slot>)
    requires |ys| <= n
    ensures (Nulls(n) + ys)[|ys|..] == Nulls(n - |ys|) + ys
  {
    var k := n - |ys|;
    var z := Nulls(n) + ys;
    var w := z[|ys|..];
    var v := Nulls(k) + ys;
    forall i | 0 <= i < n ensures w[i] == v[i] {
      assert w[i] == z[i + |ys|];
      if i < k {
        assert z[i + |ys|] == Null;
      } else {
        assert z[i + |ys|] == ys[i - k];
      }
    }
    assert w == v;
  }

  /**
   * Before the window of length n has been filled (at most n appends to a
   * fresh averager), the average is the sum of the appended values over n.
   */
  lemma PartialWindowAverage(n: nat, xs: seq<real>)
    requires 0 < n && |xs| <= n
    ensures Mean(AppendAll(Nulls(n), xs)) == Some(ValuesSum(xs) / n as real)
  {
    FewAppendsWindow(n, xs);
    var k := n - |xs|;
    SumConcat(Nulls(k), Nums(xs));
    SumOfNulls(k);
    SumOfNums(xs);
    assert Sum(Nulls(k) + Nums(xs)) == ValuesSum(xs);
  }

  /** With window 3: appending 1, 2, 3 averages 2; appending 4 next gives [2, 3, 4] and average 3. */
  lemma WindowOfThreeExample()
    ensures Mean(AppendAll(Nulls(3), [1.0, 2.0, 3.0])) == Some(2.0)
    ensures AppendAll(Nulls(3), [1.0, 2.0, 3.0, 4.0]) == [Num(2.0), Num(3.0), Num(4.0)]
    ensures Mean(AppendAll(Nulls(3), [1.0, 2.0, 3.0, 4.0])) == Some(3.0)
  {
    PartialWindowAverage(3, [1.0, 2.0, 3.0]);
    assert ValuesSum([1.0, 2.0, 3.0]) == 6.0;
    LastAppendedValues(3, Nulls(3), [1.0, 2.0, 3.0, 4.0]);
    var w := [Num(2.0), Num(3.0), Num(4.0)];
    assert Nums([1.0, 2.0, 3.0, 4.0][1..]) == w;
    assert Sum(w) == 9.0;
  }

  /** The averager object of train.js, whose `buffer` is updated in place. */
  class MovingAverager {
    var buffer: seq<Slot>

    /** `new MovingAverager(bufferLength)`: a loop pushes `null` bufferLength times. */
    constructor (bufferLength: nat)
      ensures buffer == Nulls(bufferLength)
    {
      buffer := [];
      new;
      var i := 0;
      while i < bufferLength
        invariant 0 <= i <= bufferLength
        invariant buffer == Nulls(i)
      {
        buffer := buffer + [Null];
        i := i + 1;
      }
    }

    /** `append(x)`: `this.buffer.shift(); this.buffer.push(x);` */
    method Append(x: real)
      modifies this
      ensures buffer == Appended(old(buffer), x)
    {
      if |buffer| > 0 {
        buffer := buffer[1..];
      }
      buffer := buffer + [Num(x)];
    }

    /** `average()` of the current window. */
    function Average(): (r: Option<real>)
      reads this
      ensures r == Mean(buffer)
    {
      Mean(buffer)
    }
  }
}
