/**
  The scoring transform (apps/risk-worker/src/model.rs) over exact reals. The sigmoid is a parameter:
  all that is used of it is that it is strictly increasing.
 */
module Scoring {
  import opened Event

  datatype Model = Model(
    weights: seq<real>,
    intercept: real,
    slope: real,
    calibrationIntercept: real,
    threshold: real,
    version: string)

  const FEATURE_COUNT: nat := 7

  /** The artifact the worker embeds (apps/risk-worker/model/model.json). */
  const MODEL: Model := Model(
    [ 1.9520989945416278, 1.0032294689549075, 1.5015551911354097, 1.2138027434282923,
      2.3241663320425854, 0.8883783456280958, 2.0913926772208615 ],
    -7.936039213608149, 0.8986711543348067, -0.03011111039811328, 0.4739999999999999,
    "logreg-calibrated-v2")

  datatype RiskDecision = RiskDecision(eventId: string, score: real, risky: bool, modelVersion: string)

  function Clamp(x: real, low: real, high: real): real {
    if x < low then low else if x > high then high else x
  }

  function Features(e: PaymentEvent): (xs: seq<real>)
    ensures |xs| == FEATURE_COUNT
  {
    [ Clamp(e.amountCents as real / 100000.0, 0.0, 10.0),
      if e.hourUtc <= 5 || e.hourUtc >= 23 then 1.0 else 0.0,
      if e.cardPresent then 0.0 else 1.0,
      if e.country == "US" then 0.0 else 1.0,
      Clamp(e.velocity5m as real / 10.0, 0.0, 10.0),
      Clamp(e.velocity1h as real / 30.0, 0.0, 10.0),
      Clamp(e.priorDeclines as real / 5.0, 0.0, 10.0) ]
  }

  function Dot(xs: seq<real>, ws: seq<real>): real
    requires |xs| == |ws|
  {
    if xs == [] then 0.0 else Times(xs[0], ws[0]) + Dot(xs[1..], ws[1..])
  }

  function Times(x: real, w: real): real { x * w }

  /** The argument of the sigmoid. */
  function Calibrated(m: Model, e: PaymentEvent): real
    requires |m.weights| == FEATURE_COUNT
  {
    Times(m.intercept + Dot(Features(e), m.weights), m.slope) + m.calibrationIntercept
  }

  function Score(m: Model, sigmoid: real -> real, e: PaymentEvent): RiskDecision
    requires |m.weights| == FEATURE_COUNT
  {
    var probability := sigmoid(Calibrated(m, e));
    RiskDecision(e.eventId, probability, probability >= m.threshold, m.version)
  }

  /** An event is risky exactly when its score reaches the threshold; the decision names it and the model. */
  lemma VerdictExactly(m: Model, sigmoid: real -> real, e: PaymentEvent)
    requires |m.weights| == FEATURE_COUNT
    ensures var d := Score(m, sigmoid, e);
            && (d.risky <==> d.score >= m.threshold)
            && d.eventId == e.eventId && d.modelVersion == m.version
  {
  }

  ghost predicate Increasing(sigmoid: real -> real) {
    forall x, y :: x < y ==> sigmoid(x) < sigmoid(y)
  }

  /**
    The calibration slope pushes the score up, and no weight of a count pulls it down. The three yes-or-no features
    may have any weight.
   */
  predicate Upward(m: Model) {
    && |m.weights| == FEATURE_COUNT
    && m.weights[0] >= 0.0 && m.weights[4] >= 0.0 && m.weights[5] >= 0.0 && m.weights[6] >= 0.0
    && m.slope > 0.0
  }

  lemma EmbeddedModelIsUpward()
    ensures Upward(MODEL) && 0.4739999 < MODEL.threshold < 0.4740001
    ensures forall i :: 0 <= i < FEATURE_COUNT ==> MODEL.weights[i] > 0.0
  {
  }

  lemma Scaled(x: real, y: real, w: real)
    requires x <= y && w > 0.0
    ensures x * w <= y * w
    ensures x < y ==> x * w < y * w
  {
    assert (y - x) * w >= 0.0;
  }

  /** The second list is nowhere smaller, and larger only where the weight is not negative. */
  ghost predicate Favours(xs: seq<real>, ys: seq<real>, ws: seq<real>) {
    && |xs| == |ys| == |ws|
    && forall i :: 0 <= i < |xs| ==> xs[i] == ys[i] || (xs[i] < ys[i] && ws[i] >= 0.0)
  }

  /** And somewhere it is larger and counts. */
  ghost predicate Lifts(xs: seq<real>, ys: seq<real>, ws: seq<real>)
    requires |xs| == |ys| == |ws|
  {
    exists i :: 0 <= i < |xs| && xs[i] < ys[i] && ws[i] > 0.0
  }

  lemma TermOrder(x: real, y: real, w: real)
    requires x == y || (x < y && w >= 0.0)
    ensures Times(x, w) <= Times(y, w)
    ensures Times(x, w) < Times(y, w) <==> x < y && w > 0.0
  {
    if x == y || w == 0.0 {
    } else {
      Scaled(x, y, w);
    }
  }

  lemma LiftsSplit(xs: seq<real>, ys: seq<real>, ws: seq<real>)
    requires |xs| == |ys| == |ws| > 0
    ensures Lifts(xs, ys, ws) <==> (xs[0] < ys[0] && ws[0] > 0.0) || Lifts(xs[1..], ys[1..], ws[1..])
  {
    if Lifts(xs[1..], ys[1..], ws[1..]) {
      var i :| 0 <= i < |xs[1..]| && xs[1..][i] < ys[1..][i] && ws[1..][i] > 0.0;
      assert xs[i + 1] < ys[i + 1] && ws[i + 1] > 0.0;
    }
    if Lifts(xs, ys, ws) && !(xs[0] < ys[0] && ws[0] > 0.0) {
      var i :| 0 <= i < |xs| && xs[i] < ys[i] && ws[i] > 0.0;
      assert xs[1..][i - 1] < ys[1..][i - 1] && ws[1..][i - 1] > 0.0;
    }
  }

  lemma {:induction false} DotOrder(xs: seq<real>, ys: seq<real>, ws: seq<real>)
    requires Favours(xs, ys, ws)
    ensures Dot(xs, ws) <= Dot(ys, ws)
    ensures Dot(xs, ws) < Dot(ys, ws) <==> Lifts(xs, ys, ws)
  {
    if xs == [] {
    } else {
      hide Lifts, Times;
      DotOrder(xs[1..], ys[1..], ws[1..]);
      LiftsSplit(xs, ys, ws);
      TermOrder(xs[0], ys[0], ws[0]);
      SumOrder(Times(xs[0], ws[0]), Times(ys[0], ws[0]), Dot(xs[1..], ws[1..]), Dot(ys[1..], ws[1..]));
    }
  }

  lemma SumOrder(a: real, b: real, p: real, q: real)
    requires a <= b && p <= q
    ensures a + p <= b + q
    ensures a + p < b + q <==> a < b || p < q
  {
  }

  /** f is e with a larger amount, velocity or decline count, or the same. */
  ghost predicate Riskier(e: PaymentEvent, f: PaymentEvent) {
    && e.amountCents <= f.amountCents
    && e.velocity5m <= f.velocity5m
    && e.velocity1h <= f.velocity1h
    && e.priorDeclines <= f.priorDeclines
    && e.hourUtc == f.hourUtc && e.cardPresent == f.cardPresent && e.country == f.country
  }

  /** The four counts with everything beyond the clipping limit cut off. */
  function Clipped(e: PaymentEvent): (int, int, int, int) {
    (Cut(e.amountCents, 1000000), Cut(e.velocity5m, 100), Cut(e.velocity1h, 300), Cut(e.priorDeclines, 50))
  }

  function Cut(n: int, limit: nat): int {
    if n < 0 then 0 else if n > limit then limit else n
  }

  lemma ClampIsCut(n: int, unit: int)
    requires unit > 0
    ensures Clamp(n as real / unit as real, 0.0, 10.0) == Cut(n, 10 * unit) as real / unit as real
  {
    var u := unit as real;
    var x := n as real / u;
    RatioBounds(n as real, u);
    assert (10 * unit) as real == 10.0 * u;
    if n > 10 * unit {
      assert n as real > 10.0 * u;
      TenUnits(u);
    } else if n < 0 {
      assert n as real < 0.0;
    }
  }

  lemma TenUnits(u: real)
    requires u > 0.0
    ensures (10.0 * u) / u == 10.0
  {
  }

  lemma RatioBounds(n: real, u: real)
    requires u > 0.0
    ensures n / u > 10.0 <==> n > 10.0 * u
    ensures n / u < 0.0 <==> n < 0.0
  {
    var x := n / u;
    assert x * u == n;
    if x <= 10.0 { Scaled(x, 10.0, u); } else { Scaled(10.0, x, u); }
    if x < 0.0 { Scaled(x, 0.0, u); } else { Scaled(0.0, x, u); }
  }

  lemma RatioOrder(m: int, n: int, unit: int)
    requires unit > 0
    ensures m as real / unit as real == n as real / unit as real <==> m == n
    ensures m <= n ==> m as real / unit as real <= n as real / unit as real
  {
    var u := unit as real;
    var x, y := m as real / u, n as real / u;
    assert x * u == m as real && y * u == n as real;
    if m <= n && x > y {
      Scaled(y, x, u);
    }
  }

  /** Some count that carries weight differs even once clipped. */
  predicate Matters(m: Model, e: PaymentEvent, f: PaymentEvent)
    requires |m.weights| == FEATURE_COUNT
  {
    || (m.weights[0] > 0.0 && Clipped(e).0 != Clipped(f).0)
    || (m.weights[4] > 0.0 && Clipped(e).1 != Clipped(f).1)
    || (m.weights[5] > 0.0 && Clipped(e).2 != Clipped(f).2)
    || (m.weights[6] > 0.0 && Clipped(e).3 != Clipped(f).3)
  }

  lemma FeatureOrder(m: Model, e: PaymentEvent, f: PaymentEvent)
    requires Upward(m) && Riskier(e, f)
    ensures Favours(Features(e), Features(f), m.weights)
    ensures Lifts(Features(e), Features(f), m.weights) <==> Matters(m, e, f)
  {
    var x, y := Features(e), Features(f);
    CountOrder(e.amountCents, f.amountCents, 100000);
    CountOrder(e.velocity5m, f.velocity5m, 10);
    CountOrder(e.velocity1h, f.velocity1h, 30);
    CountOrder(e.priorDeclines, f.priorDeclines, 5);
    assert x[1] == y[1] && x[2] == y[2] && x[3] == y[3];
    assert x[0] < y[0] <==> Clipped(e).0 != Clipped(f).0;
    assert x[4] < y[4] <==> Clipped(e).1 != Clipped(f).1;
    assert x[5] < y[5] <==> Clipped(e).2 != Clipped(f).2;
    assert x[6] < y[6] <==> Clipped(e).3 != Clipped(f).3;
  }

  lemma CountOrder(m: int, n: int, unit: int)
    requires unit > 0 && m <= n
    ensures Clamp(m as real / unit as real, 0.0, 10.0) <= Clamp(n as real / unit as real, 0.0, 10.0)
    ensures Clamp(m as real / unit as real, 0.0, 10.0) == Clamp(n as real / unit as real, 0.0, 10.0) <==>
            Cut(m, 10 * unit) == Cut(n, 10 * unit)
  {
    ClampIsCut(m, unit);
    ClampIsCut(n, unit);
    RatioOrder(Cut(m, 10 * unit), Cut(n, 10 * unit), unit);
  }

  lemma CalibratedOrder(m: Model, e: PaymentEvent, f: PaymentEvent)
    requires Upward(m) && Riskier(e, f)
    ensures Calibrated(m, e) <= Calibrated(m, f)
    ensures Calibrated(m, e) < Calibrated(m, f) <==> Matters(m, e, f)
  {
    hide Features, Matters, Riskier, Lifts, Favours, Dot, Times;
    FeatureOrder(m, e, f);
    DotOrder(Features(e), Features(f), m.weights);
    TermOrder(m.intercept + Dot(Features(e), m.weights), m.intercept + Dot(Features(f), m.weights), m.slope);
  }

  /**
    Raising the amount, a velocity or the declines never lowers the score and never clears a risky verdict; it
    raises the score exactly if a count that carries weight changes within the clipping limits.
   */
  lemma ScoreFollowsRisk(m: Model, sigmoid: real -> real, e: PaymentEvent, f: PaymentEvent)
    requires Upward(m) && Increasing(sigmoid)
    requires Riskier(e, f)
    ensures Score(m, sigmoid, e).score <= Score(m, sigmoid, f).score
    ensures Score(m, sigmoid, e).risky ==> Score(m, sigmoid, f).risky
    ensures Score(m, sigmoid, e).score < Score(m, sigmoid, f).score <==> Matters(m, e, f)
  {
    hide Matters, Riskier, Calibrated;
    CalibratedOrder(m, e, f);
  }

  /** The score follows the risk for every pair of valid events. */
  ghost predicate FollowsRisk(m: Model, sigmoid: real -> real)
    requires |m.weights| == FEATURE_COUNT
  {
    forall e, f :: Valid(e) && Valid(f) && Riskier(e, f) ==> Score(m, sigmoid, e).score <= Score(m, sigmoid, f).score
  }

  /** An event with the given counts and nothing else against it. */
  function Plain(cents: nat, five: nat, hour: nat, declines: nat): PaymentEvent {
    PaymentEvent("a", cents, "USD", 0, "US", true, 12, five, hour, declines)
  }

  lemma PlainValid(cents: nat, five: nat, hour: nat, declines: nat)
    requires cents <= 100000 && five <= 10 && hour <= 30 && declines <= 5
    ensures Valid(Plain(cents, five, hour, declines))
  {
  }

  lemma PlainScore(m: Model, cents: nat, five: nat, hour: nat, declines: nat)
    requires |m.weights| == FEATURE_COUNT
    requires (cents == 0 || cents == 100000) && (five == 0 || five == 10)
    requires (hour == 0 || hour == 30) && (declines == 0 || declines == 5)
    ensures Dot(Features(Plain(cents, five, hour, declines)), m.weights) ==
            (if cents == 0 then 0.0 else m.weights[0]) + (if five == 0 then 0.0 else m.weights[4]) +
            (if hour == 0 then 0.0 else m.weights[5]) + (if declines == 0 then 0.0 else m.weights[6])
  {
    hide Features, Dot, Times;
    var ws := m.weights;
    var xs := Features(Plain(cents, five, hour, declines));
    PlainFeatures(cents, five, hour, declines);
    DotSeven(xs, ws);
    forall i | 0 <= i < FEATURE_COUNT ensures Times(xs[i], ws[i]) == if xs[i] == 0.0 then 0.0 else ws[i] {
      Unit(xs[i], ws[i]);
    }
  }

  lemma Unit(x: real, w: real)
    requires x == 0.0 || x == 1.0
    ensures Times(x, w) == if x == 0.0 then 0.0 else w
  {
  }

  lemma PlainFeatures(cents: nat, five: nat, hour: nat, declines: nat)
    requires (cents == 0 || cents == 100000) && (five == 0 || five == 10)
    requires (hour == 0 || hour == 30) && (declines == 0 || declines == 5)
    ensures var xs := Features(Plain(cents, five, hour, declines));
            && xs[1] == xs[2] == xs[3] == 0.0
            && xs[0] == (if cents == 0 then 0.0 else 1.0) && xs[4] == (if five == 0 then 0.0 else 1.0)
            && xs[5] == (if hour == 0 then 0.0 else 1.0) && xs[6] == (if declines == 0 then 0.0 else 1.0)
  {
    assert Plain(cents, five, hour, declines).country == "US";
    assert 100000.0 / 100000.0 == 1.0 && 10.0 / 10.0 == 1.0 && 30.0 / 30.0 == 1.0 && 5.0 / 5.0 == 1.0;
    assert 0.0 / 100000.0 == 0.0 / 10.0 == 0.0 / 30.0 == 0.0 / 5.0 == 0.0;
  }

  lemma DotSeven(xs: seq<real>, ws: seq<real>)
    requires |xs| == |ws| == 7
    ensures Dot(xs, ws) ==
            Times(xs[0], ws[0]) + Times(xs[1], ws[1]) + Times(xs[2], ws[2]) + Times(xs[3], ws[3]) +
            Times(xs[4], ws[4]) + Times(xs[5], ws[5]) + Times(xs[6], ws[6])
  {
    hide Times, Dot;
    assert xs[0..] == xs && ws[0..] == ws && xs[7..] == [] == ws[7..];
    DotFrom(xs, ws, 0);
    DotFrom(xs, ws, 1);
    DotFrom(xs, ws, 2);
    DotFrom(xs, ws, 3);
    DotFrom(xs, ws, 4);
    DotFrom(xs, ws, 5);
    DotFrom(xs, ws, 6);
    DotNothing();
  }

  lemma DotNothing()
    ensures Dot([], []) == 0.0
  {
  }

  lemma DotFrom(xs: seq<real>, ws: seq<real>, i: nat)
    requires |xs| == |ws| && i < |xs|
    ensures Dot(xs[i..], ws[i..]) == Times(xs[i], ws[i]) + Dot(xs[i + 1..], ws[i + 1..])
  {
    hide Times;
    assert xs[i..][1..] == xs[i + 1..] && ws[i..][1..] == ws[i + 1..];
  }

  lemma PulledDown(m: Model, sigmoid: real -> real, cents: nat, five: nat, hour: nat, declines: nat)
    requires |m.weights| == FEATURE_COUNT && m.slope > 0.0 && Increasing(sigmoid)
    requires (cents == 0 || cents == 100000) && (five == 0 || five == 10)
    requires (hour == 0 || hour == 30) && (declines == 0 || declines == 5)
    requires (if cents == 0 then 0.0 else m.weights[0]) + (if five == 0 then 0.0 else m.weights[4]) +
             (if hour == 0 then 0.0 else m.weights[5]) + (if declines == 0 then 0.0 else m.weights[6]) < 0.0
    ensures !FollowsRisk(m, sigmoid)
  {
    hide Features, Valid, Dot;
    var e, f := Plain(0, 0, 0, 0), Plain(cents, five, hour, declines);
    PlainValid(0, 0, 0, 0);
    PlainValid(cents, five, hour, declines);
    PlainScore(m, 0, 0, 0, 0);
    PlainScore(m, cents, five, hour, declines);
    TermOrder(m.intercept + Dot(Features(f), m.weights), m.intercept + Dot(Features(e), m.weights), m.slope);
    assert Score(m, sigmoid, f).score < Score(m, sigmoid, e).score;
    assert Riskier(e, f);
  }

  /**
    With a positive slope, the score follows the risk exactly for the models in which no count has a negative
    weight.
   */
  lemma FollowsRiskExactly(m: Model, sigmoid: real -> real)
    requires |m.weights| == FEATURE_COUNT && m.slope > 0.0 && Increasing(sigmoid)
    ensures FollowsRisk(m, sigmoid) <==> Upward(m)
  {
    if Upward(m) {
      forall e, f | Valid(e) && Valid(f) && Riskier(e, f)
        ensures Score(m, sigmoid, e).score <= Score(m, sigmoid, f).score
      {
        ScoreFollowsRisk(m, sigmoid, e, f);
      }
    } else if m.weights[0] < 0.0 {
      PulledDown(m, sigmoid, 100000, 0, 0, 0);
    } else if m.weights[4] < 0.0 {
      PulledDown(m, sigmoid, 0, 10, 0, 0);
    } else if m.weights[5] < 0.0 {
      PulledDown(m, sigmoid, 0, 0, 30, 0);
    } else {
      PulledDown(m, sigmoid, 0, 0, 0, 5);
    }
  }

  lemma CountAlike(m: int, n: int, unit: int)
    requires unit > 0
    requires Cut(m, 10 * unit) == Cut(n, 10 * unit)
    ensures Clamp(m as real / unit as real, 0.0, 10.0) == Clamp(n as real / unit as real, 0.0, 10.0)
  {
    ClampIsCut(m, unit);
    ClampIsCut(n, unit);
  }

  /** Events that agree once clipped get the same score and verdict, however far beyond the limits they lie. */
  lemma SaturatedAlike(m: Model, sigmoid: real -> real, e: PaymentEvent, f: PaymentEvent)
    requires |m.weights| == FEATURE_COUNT
    requires Clipped(e) == Clipped(f)
    requires e.hourUtc == f.hourUtc && e.cardPresent == f.cardPresent && e.country == f.country
    ensures Score(m, sigmoid, f) == Score(m, sigmoid, e).(eventId := f.eventId)
  {
    CountAlike(e.amountCents, f.amountCents, 100000);
    CountAlike(e.velocity5m, f.velocity5m, 10);
    CountAlike(e.velocity1h, f.velocity1h, 30);
    CountAlike(e.priorDeclines, f.priorDeclines, 5);
    assert Features(e) == Features(f);
    assert Calibrated(m, e) == Calibrated(m, f);
  }

  // ----------------------------------------------------------------------------------------------
  // The score in full
  // ----------------------------------------------------------------------------------------------

  /** What the features add up to within the clipping limits, with every unit and weight spelled out. */
  function Linear(m: Model, e: PaymentEvent): real
    requires |m.weights| == FEATURE_COUNT
  {
    var amount, fives := e.amountCents as real / 100000.0, e.velocity5m as real / 10.0;
    var hours, declines := e.velocity1h as real / 30.0, e.priorDeclines as real / 5.0;
    Times(amount, m.weights[0])
    + (if e.hourUtc <= 5 || e.hourUtc >= 23 then m.weights[1] else 0.0)
    + (if !e.cardPresent then m.weights[2] else 0.0)
    + (if e.country != "US" then m.weights[3] else 0.0)
    + Times(fives, m.weights[4]) + Times(hours, m.weights[5]) + Times(declines, m.weights[6])
  }

  function Argument(m: Model, e: PaymentEvent): real
    requires |m.weights| == FEATURE_COUNT
  {
    (m.intercept + Linear(m, e)) * m.slope + m.calibrationIntercept
  }

  /** Within the limits of 10,000.00, 100, 300 and 50 the score is the calibrated sigmoid of that sum. */
  lemma ScoreWithinLimits(m: Model, sigmoid: real -> real, e: PaymentEvent)
    requires |m.weights| == FEATURE_COUNT
    requires 0 <= e.amountCents <= 1000000 && 0 <= e.velocity5m <= 100
    requires 0 <= e.velocity1h <= 300 && 0 <= e.priorDeclines <= 50
    ensures Score(m, sigmoid, e).score == sigmoid(Argument(m, e))
  {
    hide Linear, Calibrated, Argument, Features, Dot;
    DotWithinLimits(m, e);
    CalibratedIs(m, e, Linear(m, e));
    ArgumentIs(m, e);
  }

  lemma ArgumentIs(m: Model, e: PaymentEvent)
    requires |m.weights| == FEATURE_COUNT
    requires Calibrated(m, e) == (m.intercept + Linear(m, e)) * m.slope + m.calibrationIntercept
    ensures Calibrated(m, e) == Argument(m, e)
  {
    hide Calibrated, Linear;
  }

  lemma CalibratedIs(m: Model, e: PaymentEvent, sum: real)
    requires |m.weights| == FEATURE_COUNT && sum == Dot(Features(e), m.weights)
    ensures Calibrated(m, e) == (m.intercept + sum) * m.slope + m.calibrationIntercept
  {
    hide Dot, Features, Times;
    Product(m.intercept + sum, m.slope);
  }

  lemma DotWithinLimits(m: Model, e: PaymentEvent)
    requires |m.weights| == FEATURE_COUNT
    requires 0 <= e.amountCents <= 1000000 && 0 <= e.velocity5m <= 100
    requires 0 <= e.velocity1h <= 300 && 0 <= e.priorDeclines <= 50
    ensures Dot(Features(e), m.weights) == Linear(m, e)
  {
    hide Dot, Features, Times;
    var xs, ws := Features(e), m.weights;
    FeaturesWithinLimits(e);
    DotSeven(xs, ws);
    Unit(xs[1], ws[1]);
    Unit(xs[2], ws[2]);
    Unit(xs[3], ws[3]);
  }

  lemma Product(x: real, w: real)
    ensures Times(x, w) == x * w
  {
  }

  lemma FeaturesWithinLimits(e: PaymentEvent)
    requires 0 <= e.amountCents <= 1000000 && 0 <= e.velocity5m <= 100
    requires 0 <= e.velocity1h <= 300 && 0 <= e.priorDeclines <= 50
    ensures Features(e) ==
            [ e.amountCents as real / 100000.0,
              if e.hourUtc <= 5 || e.hourUtc >= 23 then 1.0 else 0.0,
              if e.cardPresent then 0.0 else 1.0,
              if e.country == "US" then 0.0 else 1.0,
              e.velocity5m as real / 10.0, e.velocity1h as real / 30.0, e.priorDeclines as real / 5.0 ]
  {
    RatioBounds(e.amountCents as real, 100000.0);
    RatioBounds(e.velocity5m as real, 10.0);
    RatioBounds(e.velocity1h as real, 30.0);
    RatioBounds(e.priorDeclines as real, 5.0);
  }

  /** A small daytime payment by card in the country, and the same with a large amount and five declines. */
  const NORMAL: PaymentEvent := PaymentEvent("test", 2500, "USD", 5812, "US", true, 12, 1, 2, 0)
  const RISKY: PaymentEvent := PaymentEvent("test", 900000, "USD", 5812, "US", true, 12, 1, 2, 5)

  /** What the embedded model makes of the two, with any increasing sigmoid that is 1/2 at 0 and low at -1. */
  lemma EmbeddedVerdicts(sigmoid: real -> real)
    requires Increasing(sigmoid) && sigmoid(0.0) == 0.5 && sigmoid(-1.0) < 0.3
    ensures !Score(MODEL, sigmoid, NORMAL).risky && Score(MODEL, sigmoid, RISKY).risky
    ensures Score(MODEL, sigmoid, NORMAL).modelVersion == "logreg-calibrated-v2"
  {
    hide Calibrated;
    SampleArguments();
    assert sigmoid(Calibrated(MODEL, NORMAL)) < sigmoid(-1.0);
    assert sigmoid(0.0) < sigmoid(Calibrated(MODEL, RISKY));
    assert 0.3 < MODEL.threshold < 0.5;
  }

  lemma SampleArguments()
    ensures -6.9 < Calibrated(MODEL, NORMAL) < -6.8 && 10.7 < Calibrated(MODEL, RISKY) < 10.8
  {
    hide Dot, Features;
    FeaturesWithinLimits(NORMAL);
    FeaturesWithinLimits(RISKY);
    DotSeven(Features(NORMAL), MODEL.weights);
    DotSeven(Features(RISKY), MODEL.weights);
  }

  predicate Near(x: real, y: real) { y - 0.000001 < x < y + 0.000001 }

  /** What the embedded model makes of that event and of one change to each of its features, to six decimals. */
  lemma EmbeddedResponse()
    ensures Near(Calibrated(MODEL, NORMAL), -6.856053)
    ensures Near(Calibrated(MODEL, NORMAL.(amountCents := 900000)), 8.888745)
    ensures Near(Calibrated(MODEL, NORMAL.(hourUtc := 23)), -5.954480)
    ensures Near(Calibrated(MODEL, NORMAL.(cardPresent := false)), -5.506649)
    ensures Near(Calibrated(MODEL, NORMAL.(country := "CA")), -5.765244)
    ensures Near(Calibrated(MODEL, NORMAL.(velocity5m := 20)), -2.887597)
    ensures Near(Calibrated(MODEL, NORMAL.(velocity1h := 60)), -5.312557)
    ensures Near(Calibrated(MODEL, NORMAL.(priorDeclines := 5)), -4.976579)
  {
    hide Dot, Features, Calibrated;
    SampleArgument(NORMAL);
    SampleArgument(NORMAL.(amountCents := 900000));
    SampleArgument(NORMAL.(hourUtc := 23));
    SampleArgument(NORMAL.(cardPresent := false));
    SampleArgument(NORMAL.(country := "CA"));
    SampleArgument(NORMAL.(velocity5m := 20));
    SampleArgument(NORMAL.(velocity1h := 60));
    SampleArgument(NORMAL.(priorDeclines := 5));
  }

  lemma SampleArgument(e: PaymentEvent)
    requires 0 <= e.amountCents <= 1000000 && 0 <= e.velocity5m <= 100
    requires 0 <= e.velocity1h <= 300 && 0 <= e.priorDeclines <= 50
    ensures Calibrated(MODEL, e) == (MODEL.intercept + Linear(MODEL, e)) * MODEL.slope + MODEL.calibrationIntercept
  {
    hide Dot, Features, Linear, Calibrated;
    DotWithinLimits(MODEL, e);
    CalibratedIs(MODEL, e, Linear(MODEL, e));
  }
}
