/**
 * The JavaScript numbers the ledger computes with. A number is either a
 * finite value, held exactly as a `real`, or NaN; arithmetic on NaN gives
 * NaN and every ordering comparison with NaN is false.
 */
module JsNumbers {

  import opened Wrappers

  datatype Num = Fin(v: real) | NaN

  function Add(a: Num, b: Num): Num
  {
    if a.Fin? && b.Fin? then Fin(a.v + b.v) else NaN
  }

  function Sub(a: Num, b: Num): Num
  {
    if a.Fin? && b.Fin? then Fin(a.v - b.v) else NaN
  }

  function Mul(a: Num, b: Num): Num
  {
    if a.Fin? && b.Fin? then Fin(a.v * b.v) else NaN
  }

  /** `a / d` for a positive length `d`. */
  function Div(a: Num, d: nat): Num
    requires d > 0
  {
    if a.Fin? then Fin(a.v / d as real) else NaN
  }

  /** The number `parseInt` produced: `None` is NaN. */
  function FromInt(x: Option<int>): Num
  {
    if x.Some? then Fin(x.value as real) else NaN
  }

  /** `a > 0` */
  predicate Positive(a: Num)
  {
    a.Fin? && a.v > 0.0
  }

  /** The value `let t = 0; for (x of xs) t += x;` ends with. */
  function Sum(xs: seq<Num>): Num
  {
    if xs == [] then Fin(0.0) else Add(Sum(xs[..|xs| - 1]), xs[|xs| - 1])
  }

  /** The finite sum of the values of `xs`, when all of them are finite. */
  function RealSum(xs: seq<Num>): real
    requires forall i :: 0 <= i < |xs| ==> xs[i].Fin?
  {
    if xs == [] then 0.0 else RealSum(xs[..|xs| - 1]) + xs[|xs| - 1].v
  }

  /** NaN poisons a running total, and only NaN does. */
  lemma {:induction false} SumPoison(xs: seq<Num>)
    ensures Sum(xs).NaN? <==> exists i :: 0 <= i < |xs| && xs[i].NaN?
    ensures Sum(xs).Fin? ==> Sum(xs).v == RealSum(xs)
  {
    if xs != [] {
      var init := xs[..|xs| - 1];
      SumPoison(init);
      if Sum(xs).NaN? && xs[|xs| - 1].Fin? {
        var i :| 0 <= i < |init| && init[i].NaN?;
        assert xs[i].NaN?;
      }
      if Sum(xs).Fin? {
        forall i | 0 <= i < |xs| ensures xs[i].Fin? {
          if i < |init| { assert init[i] == xs[i]; }
        }
      }
    }
  }

  /**
   * `parseFloat(x.toFixed(2))`: the magnitude is rounded to the nearest
   * hundredth, halves going up, and the sign put back (so "-0.00" reads
   * back as zero).
   */
  function Round2(x: real): real
  {
    if x >= 0.0 then ((x * 100.0 + 0.5).Floor as real) / 100.0
    else -(((-x * 100.0 + 0.5).Floor as real) / 100.0)
  }

  function Round2Num(a: Num): Num
  {
    if a.Fin? then Fin(Round2(a.v)) else NaN
  }

  /** Rounding moves a value by at most half a cent. */
  lemma Round2Close(x: real)
    ensures -0.005 <= Round2(x) - x <= 0.005
  {
    if x >= 0.0 {
      var k := (x * 100.0 + 0.5).Floor;
      assert k as real <= x * 100.0 + 0.5 < k as real + 1.0;
    } else {
      var k := (-x * 100.0 + 0.5).Floor;
      assert k as real <= -x * 100.0 + 0.5 < k as real + 1.0;
    }
  }

  /** A total rounds to zero exactly when it is less than half a cent away from zero. */
  lemma Round2IsZero(x: real)
    ensures Round2(x) == 0.0 <==> -0.005 < x < 0.005
  {
    if x >= 0.0 {
      var k := (x * 100.0 + 0.5).Floor;
      assert k as real <= x * 100.0 + 0.5 < k as real + 1.0;
    } else {
      var k := (-x * 100.0 + 0.5).Floor;
      assert k as real <= -x * 100.0 + 0.5 < k as real + 1.0;
    }
  }

  /** Rounding keeps a ratio inside the unit interval. */
  lemma Round2Unit(x: real)
    requires 0.0 <= x <= 1.0
    ensures 0.0 <= Round2(x) <= 1.0
  {
    var k := (x * 100.0 + 0.5).Floor;
    assert k as real <= x * 100.0 + 0.5 < k as real + 1.0;
  }

}
