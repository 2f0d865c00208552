/**
 * The online logistic model of a feature pipeline
 * (`LogisticRegressionModel` in quant/streaming.py): a weight vector, a bias
 * and a learning rate that decays geometrically down to a floor.  Each
 * update is one stochastic-gradient step on a single labelled sample.
 *
 * The logistic function keeps the source's numerically stable branch
 * structure, but `math.exp` is replaced by a stand-in, `1 / (1 - x)`, on the
 * only arguments the stable form passes to it (`x <= 0`): like `exp` there,
 * it is positive, at most 1, increasing, and 1 at 0.  Probabilities therefore
 * differ numerically from the source's; what is proved uses only those
 * shared properties.  Arithmetic is exact (`real`).
 */
module Logistic {

  /** Stands for `math.exp` on non-positive arguments. */
  function ExpStandIn(x: real): (e: real)
    requires x <= 0.0
    ensures 0.0 < e <= 1.0
    ensures x == 0.0 ==> e == 1.0
  {
    ReciprocalBounds(1.0, 1.0 - x);
    1.0 / (1.0 - x)
  }

  lemma ReciprocalBounds(d1: real, d2: real)
    requires 0.0 < d1 <= d2
    ensures 0.0 < 1.0 / d2 <= 1.0 / d1
  {
    var r1, r2 := 1.0 / d1, 1.0 / d2;
    assert r1 - r2 == (d2 - d1) * (r1 * r2);
    MulNonNegative(d2 - d1, r1 * r2);
  }

  /** `_stable_sigmoid`: exponentiates only non-positive arguments. */
  function StableSigmoid(z: real): (p: real)
    ensures 0.0 < p < 1.0
    ensures z >= 0.0 <==> p >= 0.5
  {
    if z >= 0.0 then
      var e := ExpStandIn(-z);
      ReciprocalBounds(1.0 + e, 2.0);
      1.0 / (1.0 + e)
    else
      var e := ExpStandIn(z);
      e / (1.0 + e)
  }

  lemma ExpStandInIncreasing(x: real, y: real)
    requires x <= y <= 0.0
    ensures ExpStandIn(x) <= ExpStandIn(y)
  {
    ReciprocalBounds(1.0 - y, 1.0 - x);
  }

  /** The logistic stand-in never decreases, like the logistic function. */
  lemma StableSigmoidMonotone(a: real, b: real)
    requires a <= b
    ensures StableSigmoid(a) <= StableSigmoid(b)
  {
    if 0.0 <= a {
      ExpStandInIncreasing(-b, -a);
      ReciprocalBounds(1.0 + ExpStandIn(-b), 1.0 + ExpStandIn(-a));
    } else if b < 0.0 {
      ExpStandInIncreasing(a, b);
      var ea, eb := ExpStandIn(a), ExpStandIn(b);
      assert ea / (1.0 + ea) == 1.0 - 1.0 / (1.0 + ea);
      assert eb / (1.0 + eb) == 1.0 - 1.0 / (1.0 + eb);
      ReciprocalBounds(1.0 + ea, 1.0 + eb);
    }
  }

  function Max(a: real, b: real): (m: real)
    ensures m >= a && m >= b && (m == a || m == b)
  {
    if a >= b then a else b
  }

  /** `np.dot(w, x)`. */
  function Dot(w: seq<real>, x: seq<real>): real
    requires |w| == |x|
  {
    if w == [] then 0.0 else Dot(w[..|w| - 1], x[..|x| - 1]) + w[|w| - 1] * x[|x| - 1]
  }

  /** The linear score `w . x + b`. */
  function Score(w: seq<real>, b: real, x: seq<real>): real
    requires |w| == |x|
  {
    Dot(w, x) + b
  }

  /** `w - c * x`, the in-place weight step. */
  function Step(w: seq<real>, c: real, x: seq<real>): (r: seq<real>)
    requires |w| == |x|
    ensures |r| == |w|
  {
    seq(|w|, i requires 0 <= i < |w| => w[i] - c * x[i])
  }

  /** A square sum is never negative. */
  lemma {:induction false} DotSelfNonNegative(x: seq<real>)
    ensures Dot(x, x) >= 0.0
  {
    if x != [] {
      DotSelfNonNegative(x[..|x| - 1]);
      var e := x[|x| - 1];
      assert e * e >= 0.0;
    }
  }

  /** Stepping the weights by `c * x` lowers the dot product with `x` by `c * (x . x)`. */
  lemma {:induction false} DotAfterStep(w: seq<real>, c: real, x: seq<real>)
    requires |w| == |x|
    ensures Dot(Step(w, c, x), x) == Dot(w, x) - c * Dot(x, x)
  {
    if w != [] {
      var n := |w| - 1;
      assert Step(w, c, x)[..n] == Step(w[..n], c, x[..n]) by {
        forall i | 0 <= i < n
          ensures Step(w, c, x)[..n][i] == Step(w[..n], c, x[..n])[i]
        {
        }
      }
      DotAfterStep(w[..n], c, x[..n]);
      assert (w[n] - c * x[n]) * x[n] == w[n] * x[n] - c * (x[n] * x[n]);
    }
  }

  /** The rate used for a step: never below the floor. */
  function StepRate(learningRate: real, minLr: real): (lr: real)
    ensures lr >= minLr && lr >= learningRate
    ensures lr == learningRate || lr == minLr
  {
    Max(learningRate, minLr)
  }

  /** One geometric decay of a rate. */
  function Decay(rate: real, decay: real): real
  {
    rate * decay
  }

  /** The rate after one update: decayed geometrically, floored at `minLr`. */
  function NextRate(learningRate: real, decay: real, minLr: real): (lr: real)
    ensures lr >= minLr
    ensures lr == minLr || lr == Decay(learningRate, decay)
  {
    Max(minLr, Decay(learningRate, decay))
  }

  /** `lr0 * decay^k`: the rate after `k` updates were there no floor. */
  function Decayed(lr0: real, decay: real, k: nat): real
  {
    if k == 0 then lr0 else Decay(Decayed(lr0, decay, k - 1), decay)
  }

  /** The rate after `k` updates from `lr0`. */
  function RateAfter(lr0: real, decay: real, minLr: real, k: nat): real
  {
    if k == 0 then lr0 else NextRate(RateAfter(lr0, decay, minLr, k - 1), decay, minLr)
  }

  lemma DecayedFloorAbsorbs(a: real, d: real, m: real)
    requires 0.0 <= d <= 1.0 && 0.0 <= m
    ensures Max(m, Decay(Max(m, a), d)) == Max(m, Decay(a, d))
  {
    if a < m {
      MulNonNegative(1.0 - d, m);
      MulNonNegative(m - a, d);
      assert (1.0 - d) * m == m - m * d;
      assert (m - a) * d == m * d - a * d;
    }
  }

  lemma MulNonNegative(x: real, y: real)
    requires x >= 0.0 && y >= 0.0
    ensures x * y >= 0.0
  {
  }

  /**
   * With `0 <= decay <= 1` and a non-negative floor, after `k >= 1` updates
   * the rate is `max(minLr, lr0 * decay^k)` (`Decayed`): the floor absorbs, and never
   * delays, the geometric decay.
   */
  lemma {:induction false} RateAfterClosedForm(lr0: real, decay: real, minLr: real, k: nat)
    requires 0.0 <= decay <= 1.0 && 0.0 <= minLr && k >= 1
    ensures RateAfter(lr0, decay, minLr, k) == Max(minLr, Decayed(lr0, decay, k))
  {
    if k > 1 {
      RateAfterClosedForm(lr0, decay, minLr, k - 1);
      DecayedFloorAbsorbs(Decayed(lr0, decay, k - 1), decay, minLr);
    }
  }

  /** Once an update has happened, the rate never increases and never drops below the floor. */
  lemma RateNonIncreasing(lr0: real, decay: real, minLr: real, k: nat)
    requires 0.0 <= decay <= 1.0 && 0.0 <= minLr && k >= 1
    ensures minLr <= RateAfter(lr0, decay, minLr, k + 1) <= RateAfter(lr0, decay, minLr, k)
  {
    var r := RateAfter(lr0, decay, minLr, k);
    assert r >= minLr;
    MulNonNegative(1.0 - decay, r);
    assert (1.0 - decay) * r == r - r * decay;
  }

  /** A gradient step of `c` along `x`, with `c` the rated error, moves the score toward the label. */
  lemma StepMovesTowardLabel(w: seq<real>, b: real, lr: real, x: seq<real>, target: real, c: real)
    requires |w| == |x| && lr >= 0.0 && (target == 0.0 || target == 1.0)
    requires c == lr * (StableSigmoid(Score(w, b, x)) - target)
    ensures target == 1.0 ==> StableSigmoid(Score(Step(w, c, x), b - c, x)) >= StableSigmoid(Score(w, b, x))
    ensures target == 0.0 ==> StableSigmoid(Score(Step(w, c, x), b - c, x)) <= StableSigmoid(Score(w, b, x))
  {
    var z := Score(w, b, x);
    var g := Dot(x, x) + 1.0;
    ScoreAfterStep(w, b, c, x);
    DotSelfNonNegative(x);
    ShiftMovesToward(z, lr, target, g, c);
    var z' := Score(Step(w, c, x), b - c, x);
    assert z' == z - c * g;
  }

  /** Shifting a score by `-c * g`, `c` the rated error and `g >= 0`, moves its sigmoid toward the label. */
  lemma ShiftMovesToward(z: real, lr: real, target: real, g: real, c: real)
    requires lr >= 0.0 && g >= 0.0 && (target == 0.0 || target == 1.0)
    requires c == lr * (StableSigmoid(z) - target)
    ensures target == 1.0 ==> StableSigmoid(z - c * g) >= StableSigmoid(z)
    ensures target == 0.0 ==> StableSigmoid(z - c * g) <= StableSigmoid(z)
  {
    ShiftSign(lr, StableSigmoid(z) - target, g, c);
    if target == 1.0 {
      StableSigmoidMonotone(z, z - c * g);
    } else {
      StableSigmoidMonotone(z - c * g, z);
    }
  }

  /** The score after a step of `c` along `x` (weights and bias together). */
  lemma ScoreAfterStep(w: seq<real>, b: real, c: real, x: seq<real>)
    requires |w| == |x|
    ensures Score(Step(w, c, x), b - c, x) == Score(w, b, x) - c * (Dot(x, x) + 1.0)
  {
    DotAfterStep(w, c, x);
  }

  /** A step `c = lr * e` at a non-negative rate has the sign of the error `e`, and so has `c * g` for `g >= 0`. */
  lemma ShiftSign(lr: real, e: real, g: real, c: real)
    requires lr >= 0.0 && g >= 0.0 && c == lr * e
    ensures e <= 0.0 ==> c * g <= 0.0
    ensures e >= 0.0 ==> c * g >= 0.0
  {
    if e <= 0.0 {
      MulNonNegative(lr, -e);
      assert -c >= 0.0;
      MulNonNegative(-c, g);
      assert (-c) * g == -(c * g);
    }
    if e >= 0.0 {
      MulNonNegative(lr, e);
      MulNonNegative(c, g);
    }
  }

  /** The trainable state of a model: weights, bias and the current rate. */
  datatype ModelState = ModelState(weights: seq<real>, bias: real, learningRate: real)

  /** `predict` on a state: the squashed linear score, a probability. */
  function PredictOn(s: ModelState, x: seq<real>): (p: real)
    requires |x| == |s.weights|
    ensures 0.0 < p < 1.0
    ensures p >= 0.5 <==> Score(s.weights, s.bias, x) >= 0.0
  {
    StableSigmoid(Score(s.weights, s.bias, x))
  }

  /**
   * The state after `update(x, target)`: one gradient step of the log-loss
   * at the floored rate, then the rate decays.
   */
  function Updated(s: ModelState, decay: real, minLr: real, x: seq<real>, target: real): (r: ModelState)
    requires |x| == |s.weights|
    ensures |r.weights| == |s.weights|
    ensures r.learningRate >= minLr
  {
    var c := RatedError(s, minLr, x, target);
    ModelState(Step(s.weights, c, x), s.bias - c, NextRate(s.learningRate, decay, minLr))
  }

  /** `lr * error`: the prediction error scaled by the floored rate. */
  function RatedError(s: ModelState, minLr: real, x: seq<real>, target: real): real
    requires |x| == |s.weights|
  {
    StepRate(s.learningRate, minLr) * (PredictOn(s, x) - target)
  }

  /**
   * One update moves the prediction on the trained features toward the
   * label: up (or level) for label 1, down (or level) for label 0, whatever
   * the weights, as long as the step rate is not negative.
   */
  lemma UpdateMovesTowardLabel(s: ModelState, decay: real, minLr: real, x: seq<real>, target: real)
    requires |x| == |s.weights| && StepRate(s.learningRate, minLr) >= 0.0
    requires target == 0.0 || target == 1.0
    ensures target == 1.0 ==> PredictOn(Updated(s, decay, minLr, x, target), x) >= PredictOn(s, x)
    ensures target == 0.0 ==> PredictOn(Updated(s, decay, minLr, x, target), x) <= PredictOn(s, x)
  {
    var lr := StepRate(s.learningRate, minLr);
    var c := RatedError(s, minLr, x, target);
    StepMovesTowardLabel(s.weights, s.bias, lr, x, target, c);
    var r := Updated(s, decay, minLr, x, target);
    assert r.weights == Step(s.weights, c, x) && r.bias == s.bias - c;
  }

  class LogisticRegressionModel {
    var weights: seq<real>
    var bias: real
    var learningRate: real
    const decay: real
    const minLr: real

    /** The model's trainable state as a value. */
    function State(): ModelState
      reads this
    {
      ModelState(weights, bias, learningRate)
    }

    /** Zero weights and bias; the given rate schedule. */
    constructor (nFeatures: nat, learningRate: real, decay: real, minLr: real)
      ensures |weights| == nFeatures && forall i :: 0 <= i < nFeatures ==> weights[i] == 0.0
      ensures bias == 0.0 && this.learningRate == learningRate
      ensures this.decay == decay && this.minLr == minLr
    {
      weights := seq(nFeatures, i => 0.0);
      bias := 0.0;
      this.learningRate := learningRate;
      this.decay := decay;
      this.minLr := minLr;
    }

    /** `predict`. */
    function Predict(features: seq<real>): (p: real)
      reads this
      requires |features| == |weights|
      ensures p == PredictOn(State(), features)
    {
      StableSigmoid(Score(weights, bias, features))
    }

    /**
     * `update`: one gradient step toward `target` at the floored rate, then
     * the rate decays; answers the prediction from before the step.
     */
    method Update(features: seq<real>, target: real) returns (prob: real)
      requires |features| == |weights|
      modifies this
      ensures prob == PredictOn(old(State()), features)
      ensures State() == Updated(old(State()), decay, minLr, features, target)
    {
      ghost var before := State();
      var lr := Max(learningRate, minLr);
      var z := Score(weights, bias, features);
      prob := StableSigmoid(z);
      var error := prob - target;
      var c := lr * error;
      assert c == RatedError(before, minLr, features, target);
      weights := Step(weights, c, features);
      bias := bias - c;
      learningRate := Max(minLr, Decay(learningRate, decay));
    }
  }
}
