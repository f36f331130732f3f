/** The filter itself (class UKF): its constants and weights, the prediction
    step, the two measurement updates, and the ProcessMeasurement state
    machine that seeds the state from the first reading and afterwards
    predicts and then updates with each enabled sensor's readings. */
module Ukf {
  import opened LinAlg
  import opened Numerics
  import opened Angles
  import opened Weights
  import opened Moments
  import opened Sigma
  import opened Ctrv
  import opened Lidar
  import opened Radar

  datatype SensorType = LASER | RADAR

  /** A reading: the sensor it came from, its timestamp in microseconds and
      the raw values (px, py for the lidar; rho, phi, rho_dot for the radar). */
  datatype MeasurementPackage = MeasurementPackage(sensorType: SensorType, timestamp: int, rawMeasurements: seq<real>)

  /** The filter reads two values from a lidar package and three from a radar
      package. */
  predicate WellFormed(m: MeasurementPackage) {
    match m.sensorType
    case LASER => |m.rawMeasurements| >= 2
    case RADAR => |m.rawMeasurements| == 3
  }

  /** Process noise: longitudinal acceleration (m/s^2) and yaw acceleration
      (rad/s^2). */
  const StdA: real := 1.0
  const StdYawdd: real := Pi / 8.0
  /** Lidar noise on px and py (m). */
  const StdLasPx: real := 0.15
  const StdLasPy: real := 0.15
  /** Radar noise on range (m), bearing (rad) and range rate (m/s). */
  const StdRadR: real := 0.3
  const StdRadPhi: real := 0.03
  const StdRadRd: real := 0.3
  /** Sigma-point spread parameter lambda = 3 - n_aug. */
  const Lambda: real := 3.0 - NAug as real

  /** sqrt(lambda + n_aug), the factor on the columns of L. */
  function Spread(ops: Ops): real {
    ops.sqrt(Lambda + NAug as real)
  }

  /** The state the filter carries between readings. */
  datatype FilterState = FilterState(x: Vector, P: Matrix, XsigPred: seq<Vector>, isInitialized: bool, previousTimestamp: int)

  /** The switches and the fixed parts of the filter. */
  datatype Settings = Settings(useLaser: bool, useRadar: bool, weights: seq<real>, ops: Ops)

  /** Shapes: a 5-vector, a 5x5 covariance, and either no predicted sigma
      points yet or all 15 of them. */
  predicate Consistent(f: FilterState) {
    && |f.x| == NX && IsMatrix(f.P, NX, NX) && AllOfLength(f.XsigPred, NX)
    && (|f.XsigPred| == NSigma || f.XsigPred == [])
  }

  /** The state seeded from the first reading: the measured position (a radar
      reading converted from polar coordinates) with zero speed, heading and
      yaw rate. */
  function InitialState(m: MeasurementPackage, ops: Ops): (x: Vector)
    requires WellFormed(m)
    ensures |x| == NX && x[2] == 0.0 && x[3] == 0.0 && x[4] == 0.0
    ensures m.sensorType == LASER ==> x[..2] == m.rawMeasurements[..2]
    ensures m.sensorType == RADAR ==>
              x[0] == m.rawMeasurements[0] * ops.cos(m.rawMeasurements[1]) &&
              x[1] == m.rawMeasurements[0] * ops.sin(m.rawMeasurements[1])
  {
    var z := m.rawMeasurements;
    match m.sensorType
    case RADAR => [z[0] * ops.cos(z[1]), z[0] * ops.sin(z[1]), 0.0, 0.0, 0.0]
    case LASER => [z[0], z[1], 0.0, 0.0, 0.0]
  }

  /** Seeding from a lidar reading and projecting back with H gives the reading. */
  lemma LaserSeedRoundTrip(m: MeasurementPackage, ops: Ops)
    requires WellFormed(m) && m.sensorType == LASER
    ensures MatVec(LaserH, InitialState(m, ops)) == m.rawMeasurements[..2]
  {
    LaserProjection(InitialState(m, ops));
  }

  /** The elapsed time in seconds: zero when there is no previous timestamp
      (it is 0), otherwise the microsecond difference over 10^6. */
  function TimeStep(previous: int, timestamp: int): (dt: real)
    ensures previous == 0 ==> dt == 0.0
    ensures previous != 0 ==> dt * 1000000.0 == (timestamp - previous) as real
  {
    if previous == 0 then 0.0 else (timestamp - previous) as real / 1000000.0
  }

  /** Xsig_pred_ after UKF::Prediction(dt): the augmented sigma points of
      (x, P) moved by the CTRV law. */
  function PredictedSigmaPoints(x: Vector, P: Matrix, dt: real, ops: Ops): (X: seq<Vector>)
    requires |x| == NX && IsMatrix(P, NX, NX)
    ensures |X| == NSigma && AllOfLength(X, NX)
  {
    var xAug := AugmentedMean(x);
    var L := ops.cholesky(AugmentedCovariance(P, StdA, StdYawdd));
    var Xaug := SigmaPoints(xAug, L, Spread(ops));
    seq(NSigma, i requires 0 <= i < NSigma => CtrvPoint(Xaug[i], dt, ops))
  }

  /** The predicted mean and covariance: the weighted mean of the predicted
      sigma points and their weighted covariance with headings wrapped. The
      covariance is symmetric, whatever the points and weights. */
  function PredictFromSigma(w: seq<real>, X: seq<Vector>): (e: Estimate)
    requires |w| == |X| && AllOfLength(X, NX)
    ensures |e.x| == NX && Symmetric(e.P, NX)
  {
    var mean := WeightedMean(w, X, NX);
    CovarianceSymmetric(w, X, mean, 3, |X|);
    Estimate(mean, WeightedCovariance(w, X, mean, 3, |X|))
  }

  /** With dt = 0 the prediction keeps the mean: every sigma point stays put,
      and the weighted mean of the sigma points is the augmented mean, whose
      head is x. This is what the first step after a zero previous timestamp
      does. */
  lemma ZeroStepKeepsMean(x: Vector, P: Matrix, w: seq<real>, ops: Ops)
    requires |x| == NX && IsMatrix(P, NX, NX) && AreSigmaWeights(w, NAug, Lambda)
    ensures PredictFromSigma(w, PredictedSigmaPoints(x, P, 0.0, ops)).x == x
  {
    var xAug := AugmentedMean(x);
    var L := ops.cholesky(AugmentedCovariance(P, StdA, StdYawdd));
    var Xaug := SigmaPoints(xAug, L, Spread(ops));
    var X := PredictedSigmaPoints(x, P, 0.0, ops);
    forall i | 0 <= i < NSigma ensures X[i] == Xaug[i][..NX] {
      CtrvZeroStep(Xaug[i], ops);
    }
    WeightedSumPrefix(w, Xaug, NAug, X, NX, NSigma);
    SigmaPointsMean(xAug, L, Spread(ops), w, Lambda);
  }

  /** Whether readings of this kind are used for updates. */
  predicate Enabled(s: Settings, kind: SensorType) {
    match kind
    case LASER => s.useLaser
    case RADAR => s.useRadar
  }

  /** The measurement update of ProcessMeasurement: the radar update for an
      enabled radar reading, the lidar update (on the first two values) for an
      enabled lidar reading, and the predicted estimate unchanged otherwise. */
  function Correct(s: Settings, m: MeasurementPackage, pred: Estimate, X: seq<Vector>): (e: Estimate)
    requires WellFormed(m) && |pred.x| == NX && IsMatrix(pred.P, NX, NX)
    requires |X| == |s.weights| && AllOfLength(X, NX)
    ensures |e.x| == NX && IsMatrix(e.P, NX, NX)
    ensures !Enabled(s, m.sensorType) ==> e == pred
    ensures Enabled(s, m.sensorType) && m.sensorType == RADAR ==>
              e == RadarUpdate(pred.x, pred.P, X, s.weights, RadarNoise(StdRadR, StdRadPhi, StdRadRd), m.rawMeasurements, s.ops)
    ensures Enabled(s, m.sensorType) && m.sensorType == LASER ==>
              e == LidarUpdate(pred.x, pred.P, m.rawMeasurements[..2], LaserNoise(StdLasPx, StdLasPy), s.ops)
  {
    if s.useRadar && m.sensorType == RADAR then
      RadarUpdate(pred.x, pred.P, X, s.weights, RadarNoise(StdRadR, StdRadPhi, StdRadRd), m.rawMeasurements, s.ops)
    else if s.useLaser && m.sensorType == LASER then
      LidarUpdate(pred.x, pred.P, m.rawMeasurements[..2], LaserNoise(StdLasPx, StdLasPy), s.ops)
    else pred
  }

  /** UKF::ProcessMeasurement as a function of the state. The first reading
      only seeds x, sets P to the identity and records its timestamp. Every
      later reading predicts by the elapsed time and then, if its sensor is
      enabled, runs that sensor's update. */
  function Process(s: Settings, f: FilterState, m: MeasurementPackage): (g: FilterState)
    requires Consistent(f) && WellFormed(m) && |s.weights| == NSigma
    ensures Consistent(g) && g.isInitialized && g.previousTimestamp == m.timestamp
  {
    if !f.isInitialized then
      FilterState(InitialState(m, s.ops), Identity(NX), f.XsigPred, true, m.timestamp)
    else
      var X := PredictedSigmaPoints(f.x, f.P, TimeStep(f.previousTimestamp, m.timestamp), s.ops);
      var e := Correct(s, m, PredictFromSigma(s.weights, X), X);
      FilterState(e.x, e.P, X, true, m.timestamp)
  }

  /** The first reading only initialises: no prediction and no update run, so
      the predicted sigma points are untouched, P is the identity and x is the
      seeded state. */
  lemma FirstMeasurementOnlySeeds(s: Settings, f: FilterState, m: MeasurementPackage)
    requires Consistent(f) && WellFormed(m) && |s.weights| == NSigma && !f.isInitialized
    ensures var g := Process(s, f, m);
            g.x == InitialState(m, s.ops) && g.P == Identity(NX) && g.XsigPred == f.XsigPred
  {
  }

  /** A reading from a disabled sensor leaves the predicted state as the final
      state. */
  lemma DisabledSensorOnlyPredicts(s: Settings, f: FilterState, m: MeasurementPackage)
    requires Consistent(f) && WellFormed(m) && |s.weights| == NSigma && f.isInitialized
    requires !Enabled(s, m.sensorType)
    ensures var g := Process(s, f, m);
            var X := PredictedSigmaPoints(f.x, f.P, TimeStep(f.previousTimestamp, m.timestamp), s.ops);
            g.XsigPred == X && Estimate(g.x, g.P) == PredictFromSigma(s.weights, X)
  {
  }

  /** A later reading from an enabled sensor runs one prediction and then
      exactly the update of its own kind on the predicted estimate: the radar
      update for a radar reading, the lidar update on the first two values
      for a lidar reading. */
  lemma EnabledSensorUpdates(s: Settings, f: FilterState, m: MeasurementPackage)
    requires Consistent(f) && WellFormed(m) && |s.weights| == NSigma && f.isInitialized
    requires Enabled(s, m.sensorType)
    ensures var g := Process(s, f, m);
            var X := PredictedSigmaPoints(f.x, f.P, TimeStep(f.previousTimestamp, m.timestamp), s.ops);
            var pred := PredictFromSigma(s.weights, X);
            g.XsigPred == X &&
            (m.sensorType == RADAR ==>
               Estimate(g.x, g.P) == RadarUpdate(pred.x, pred.P, X, s.weights, RadarNoise(StdRadR, StdRadPhi, StdRadRd), m.rawMeasurements, s.ops)) &&
            (m.sensorType == LASER ==>
               Estimate(g.x, g.P) == LidarUpdate(pred.x, pred.P, m.rawMeasurements[..2], LaserNoise(StdLasPx, StdLasPy), s.ops))
  {
  }

  /** After the first reading, with no previous timestamp recorded (it is 0),
      a reading from a disabled sensor leaves the mean exactly where it was:
      dt is forced to 0 and a zero-length prediction keeps the mean. */
  lemma ZeroTimestampKeepsMean(s: Settings, f: FilterState, m: MeasurementPackage)
    requires Consistent(f) && WellFormed(m) && AreSigmaWeights(s.weights, NAug, Lambda) && f.isInitialized
    requires f.previousTimestamp == 0 && !Enabled(s, m.sensorType)
    ensures Process(s, f, m).x == f.x
  {
    ZeroStepKeepsMean(f.x, f.P, s.weights, s.ops);
  }

  /** The covariance stays symmetric through every step, given that the 2x2
      inverse keeps symmetry: the seed is the identity, a prediction is a sum
      of weighted outer products, the radar update subtracts K S K^T with S
      symmetric, and the lidar update subtracts P H^T S^-1 H P. */
  lemma ProcessKeepsSymmetry(s: Settings, f: FilterState, m: MeasurementPackage)
    requires Consistent(f) && WellFormed(m) && |s.weights| == NSigma && SymmetricInverse2(s.ops)
    ensures Symmetric(Process(s, f, m).P, NX)
  {
    if f.isInitialized {
      var dt := TimeStep(f.previousTimestamp, m.timestamp);
      var X := PredictedSigmaPoints(f.x, f.P, dt, s.ops);
      var pred := PredictFromSigma(s.weights, X);
      if s.useRadar && m.sensorType == RADAR {
        RadarUpdateSymmetric(pred.x, pred.P, X, s.weights, RadarNoise(StdRadR, StdRadPhi, StdRadRd), m.rawMeasurements, s.ops);
      } else if s.useLaser && m.sensorType == LASER {
        var R := LaserNoise(StdLasPx, StdLasPy);
        LaserInnovationSymmetric(pred.P, R);
        LidarUpdateSymmetric(pred.x, pred.P, m.rawMeasurements[..2], R, s.ops);
      }
      assert Process(s, f, m).P == Correct(s, m, pred, X).P;
    }
  }

  class UKF {
    /** If false, lidar readings are ignored except for initialisation. */
    var useLaser: bool
    /** If false, radar readings are ignored except for initialisation. */
    var useRadar: bool
    /** State mean (px, py, v, yaw, yawd) and covariance. */
    var x: Vector
    var P: Matrix
    /** The predicted sigma points, one per column of Xsig_pred_. */
    var XsigPred: seq<Vector>
    var isInitialized: bool
    /** Timestamp of the last reading, in microseconds. */
    var previousTimestamp: int
    /** The sigma-point weights. */
    const weights: seq<real>
    /** The library routines the filter calls. */
    const ops: Ops

    ghost predicate Valid()
      reads this
    {
      Consistent(State()) && AreSigmaWeights(weights, NAug, Lambda)
    }

    function State(): FilterState
      reads this
    {
      FilterState(x, P, XsigPred, isInitialized, previousTimestamp)
    }

    function Config(): Settings
      reads this
    {
      Settings(useLaser, useRadar, weights, ops)
    }

    /** UKF::UKF: both sensors on, not initialised, no previous timestamp, and
        the weights lambda / (lambda + 7) for the centre point and
        0.5 / (7 + lambda) for the others. The contents of x and P are left
        unspecified. */
    constructor (ops: Ops)
      ensures Valid() && this.ops == ops
      ensures useLaser && useRadar && !isInitialized && previousTimestamp == 0 && XsigPred == []
    {
      var w := SigmaWeights(NAug, Lambda);
      weights := w;
      this.ops := ops;
      useLaser := true;
      useRadar := true;
      x := Zeros(NX);
      P := ZeroMatrix(NX, NX);
      XsigPred := [];
      previousTimestamp := 0;
      isInitialized := false;
    }

    /** UKF::ProcessMeasurement: the state moves as Process says. */
    method ProcessMeasurement(m: MeasurementPackage)
      requires Valid() && WellFormed(m)
      modifies this`x, this`P, this`XsigPred, this`isInitialized, this`previousTimestamp
      ensures Valid() && State() == Process(Config(), old(State()), m)
    {
      if !isInitialized {
        x := InitialState(m, ops);
        P := Identity(NX);
        isInitialized := true;
        previousTimestamp := m.timestamp;
      } else {
        var dt := 0.0;
        if previousTimestamp != 0 {
          dt := (m.timestamp - previousTimestamp) as real / 1000000.0;
        }
        assert dt == TimeStep(previousTimestamp, m.timestamp);
        previousTimestamp := m.timestamp;
        Prediction(dt);
        Dispatch(m);
      }
    }

    /** The end of UKF::ProcessMeasurement: a radar reading goes to
        UpdateRadar and a lidar reading to UpdateLidar when that sensor is
        enabled; otherwise the predicted estimate stays. */
    method Dispatch(m: MeasurementPackage)
      requires Valid() && WellFormed(m) && |XsigPred| == NSigma
      modifies this`x, this`P
      ensures Valid() && Estimate(x, P) == Correct(Config(), m, old(Estimate(x, P)), XsigPred)
    {
      if useRadar && m.sensorType == RADAR {
        UpdateRadar(m);
      }
      if useLaser && m.sensorType == LASER {
        UpdateLidar(m);
      }
    }

    /** UKF::Prediction: fills Xsig_pred_ with the moved sigma points and
        replaces x and P by their weighted mean and covariance. */
    method Prediction(dt: real)
      requires Valid()
      modifies this`x, this`P, this`XsigPred
      ensures Valid()
      ensures XsigPred == PredictedSigmaPoints(old(x), old(P), dt, ops)
      ensures Estimate(x, P) == PredictFromSigma(weights, XsigPred)
    {
      var xAug := AugmentedMean(x);
      var L := ops.cholesky(AugmentedCovariance(P, StdA, StdYawdd));
      var Xaug := GenerateSigmaPoints(xAug, L, Spread(ops));
      var Xpred := PredictSigmaPoints(Xaug, dt, ops);
      assert Xpred == PredictedSigmaPoints(x, P, dt, ops);
      XsigPred := Xpred;
      x := ComputeMean(weights, XsigPred, NX);
      P := ComputeCovariance(weights, XsigPred, x, 3);
    }

    /** UKF::UpdateLidar with the reading's first two values. */
    method UpdateLidar(m: MeasurementPackage)
      requires Valid() && WellFormed(m) && m.sensorType == LASER
      modifies this`x, this`P
      ensures Valid()
      ensures Estimate(x, P) == LidarUpdate(old(x), old(P), m.rawMeasurements[..2], LaserNoise(StdLasPx, StdLasPy), ops)
    {
      var e := LidarUpdate(x, P, m.rawMeasurements[..2], LaserNoise(StdLasPx, StdLasPy), ops);
      x, P := e.x, e.P;
    }

    /** UKF::UpdateRadar: the sigma points in radar space, their mean, their
        covariance plus the radar noise, the cross-covariance with the state,
        then the correction. Needs the sigma points of a prediction. */
    method UpdateRadar(m: MeasurementPackage)
      requires Valid() && WellFormed(m) && m.sensorType == RADAR && |XsigPred| == NSigma
      modifies this`x, this`P
      ensures Valid()
      ensures Estimate(x, P) == RadarUpdate(old(x), old(P), XsigPred, weights, RadarNoise(StdRadR, StdRadPhi, StdRadRd), m.rawMeasurements, ops)
    {
      var Z := ProjectSigmaPoints(XsigPred, ops);
      var zPred := ComputeMean(weights, Z, 3);
      var S := ComputeCovariance(weights, Z, zPred, 1);
      S := MatAdd(S, RadarNoise(StdRadR, StdRadPhi, StdRadRd), 3);
      var Tc := ComputeCrossCovariance(weights, XsigPred, x, 3, Z, zPred, 1);
      var e := RadarCorrect(x, P, zPred, S, Tc, m.rawMeasurements, ops);
      x, P := e.x, e.P;
    }
  }
}
