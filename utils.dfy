/**
 * The validators and range helpers of utils.js. `Math.random()` is not
 * available to a proof, so every draw it would return is a parameter.
 */
module Utils {

  /**
   * A JavaScript value as `assertPositiveInteger` can receive it: a finite
   * number, one of the non-finite numbers, or a value that is not a number
   * at all (a string, null, undefined, an object, ...).
   */
  datatype JsValue = Finite(value: real) | NaN | Infinity | NegativeInfinity | NotANumber

  /** `Number.isInteger(x)`: a finite number with no fractional part. */
  predicate IsInteger(x: JsValue)
  {
    x.Finite? && x.value.Floor as real == x.value
  }

  /** The two errors `assertPositiveInteger` throws, with the name it reports. */
  datatype AssertionError =
    | NotAnInteger(name: string, received: JsValue)
    | NotPositive(name: string, received: JsValue)

  /** Either the guard returns normally or it throws the given error. */
  datatype Outcome = Pass | Fail(error: AssertionError)

  /**
   * `assertPositiveInteger(x, name)`: the integer test comes first, so a
   * value that is not an integer is reported as such even when it is also
   * not positive.
   */
  function AssertPositiveInteger(x: JsValue, name: string): (r: Outcome)
    ensures r.Pass? <==> IsInteger(x) && x.value > 0.0
    ensures !IsInteger(x) ==> r == Fail(NotAnInteger(name, x))
    ensures IsInteger(x) && x.value <= 0.0 ==> r == Fail(NotPositive(name, x))
  {
    if !IsInteger(x) then Fail(NotAnInteger(name, x))
    else if !(x.value > 0.0) then Fail(NotPositive(name, x))
    else Pass
  }

  /** The JavaScript number with the value of the natural number n. */
  function FromNat(n: nat): JsValue
  {
    Finite(n as real)
  }

  /** The guard passes exactly on the numbers 1, 2, 3, ... */
  lemma AssertPositiveIntegerPassesExactly(x: JsValue, name: string)
    ensures AssertPositiveInteger(x, name).Pass? <==> exists n: nat :: n > 0 && x == FromNat(n)
  {
    if AssertPositiveInteger(x, name).Pass? {
      var n := x.value.Floor;
      assert n > 0 && x == FromNat(n);
    }
  }

  /** Concrete cases: -1.5 is "not an integer", 0 and -3 are "not positive", 5 passes. */
  lemma AssertPositiveIntegerExamples()
    ensures AssertPositiveInteger(Finite(-1.5), "x") == Fail(NotAnInteger("x", Finite(-1.5)))
    ensures AssertPositiveInteger(Finite(0.0), "x") == Fail(NotPositive("x", Finite(0.0)))
    ensures AssertPositiveInteger(Finite(-3.0), "x") == Fail(NotPositive("x", Finite(-3.0)))
    ensures AssertPositiveInteger(NaN, "x") == Fail(NotAnInteger("x", NaN))
    ensures AssertPositiveInteger(Infinity, "x") == Fail(NotAnInteger("x", Infinity))
    ensures AssertPositiveInteger(Finite(5.0), "x") == Pass
  {
    assert (-1.5).Floor == -2;
  }

  /**
   * `getRandomInteger(min, max)` with the draw `r` of `Math.random()` as a
   * parameter: `Math.floor((max - min) * r) + min`.
   */
  function GetRandomInteger(min: int, max: int, r: real): (x: int)
    ensures 0.0 <= r < 1.0 && min < max ==> min <= x < max
  {
    var scaled := (max - min) as real * r;
    assert 0.0 <= r < 1.0 && min < max ==> 0.0 <= scaled < (max - min) as real by {
      if 0.0 <= r < 1.0 && min < max {
        ScaleBelow((max - min) as real, r);
      }
    }
    scaled.Floor + min
  }

  /** Scaling a positive width by a draw in [0, 1) stays inside [0, width). */
  lemma ScaleBelow(width: real, r: real)
    requires width > 0.0 && 0.0 <= r < 1.0
    ensures 0.0 <= width * r < width
  {
    assert width * r < width * 1.0 by {
      assert width * (1.0 - r) > 0.0;
    }
  }

  /** Every integer of [min, max) is returned for some draw in [0, 1). */
  lemma GetRandomIntegerCoversRange(min: int, max: int, k: int)
    requires min <= k < max
    ensures exists r: real :: 0.0 <= r < 1.0 && GetRandomInteger(min, max, r) == k
  {
    var width := (max - min) as real;
    var r := (k - min) as real / width;
    assert width * r == (k - min) as real;
    assert r < 1.0 by {
      assert (k - min) as real < width;
    }
    assert GetRandomInteger(min, max, r) == k;
  }

  /**
   * `getRandomIntegers(min, max, numIntegers)`: `random(i)` is the value of
   * the i-th call of `Math.random()` made by the loop.
   */
  method GetRandomIntegers(min: int, max: int, numIntegers: int, random: nat -> real)
    returns (output: seq<int>)
    ensures |output| == if numIntegers > 0 then numIntegers else 0
    ensures forall i | 0 <= i < |output| :: output[i] == GetRandomInteger(min, max, random(i))
    ensures min < max && (forall i | 0 <= i < |output| :: 0.0 <= random(i) < 1.0) ==>
              forall i | 0 <= i < |output| :: min <= output[i] < max
  {
    output := [];
    var i := 0;
    while i < numIntegers
      invariant 0 <= i <= (if numIntegers > 0 then numIntegers else 0)
      invariant |output| == i
      invariant forall j | 0 <= j < i :: output[j] == GetRandomInteger(min, max, random(j))
    {
      output := output + [((max - min) as real * random(i)).Floor + min];
      i := i + 1;
    }
  }
}
