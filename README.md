# Unscented Kalman filter with CTRV motion, modelled in Dafny

This project models the `UKF` class of a sensor-fusion tracker (src/ukf.cpp).
The filter follows one object with the state (px, py, v, yaw, yawd): position,
speed, heading and yaw rate. It fuses two kinds of readings:

- lidar positions (px, py);
- radar readings (range, bearing, range rate).

The model covers these parts of the class:

- the constructor, which sets the sigma-point weights and the radar noise.
  In the model, `UKF.constructor` sets only the weights. The radar noise
  R_radar is `Radar.RadarNoise(StdRadR, StdRadPhi, StdRadRd)`, built again
  wherever a radar update runs (`Ukf.Correct`, `Ukf.UKF.UpdateRadar`);
- `normalizeAngle`;
- the `ProcessMeasurement` state machine. The first reading seeds the state.
  After that, each reading runs one prediction over the elapsed time, then
  the update of its sensor when that sensor is enabled;
- `Prediction`, in three steps:
  - it augments the state with the two process-noise terms and builds 15 sigma
    points from a square root of the augmented covariance;
  - it moves each point by the constant turn rate and velocity (CTRV) law,
    which has a separate branch for yaw rates of at most 0.001 in magnitude;
  - it recovers the mean and covariance as weighted sums, with headings
    wrapped;
- `UpdateLidar`, a linear Kalman update through H = [I2 0];
- `UpdateRadar`, an unscented update. In every sigma point, a px or py with
  magnitude below 1e-8 is replaced by +1e-8 (so a tiny negative value changes
  sign), and every other value is left alone. The bearing of every residual
  is wrapped.

All quantities are `real`. The model calls sin, cos, sqrt, atan2, the
Cholesky factor and the matrix inverses without knowing what they compute.
They are fields of the datatype `Numerics.Ops` and carry shape contracts,
with one exception: `sqrt` maps positive numbers to positive numbers, and the
positive radar range of `Radar.RadarPoint` rests on that. Every proved
property holds whatever those routines return, with two exceptions:
`Lidar.LidarUpdateSymmetric` and `Ukf.ProcessKeepsSymmetry` also require
that the 2x2 inverse maps symmetric matrices to symmetric ones
(`Numerics.SymmetricInverse2`). pi is the exact rational value of the double
`M_PI`.

Layout:

- `linalg.dfy`: vectors and row-major matrices over `real`.
- `angles.dfy`: pi and `normalizeAngle`.
- `weights.dfy`: the weights loop.
- `numerics.dfy`: the library routines the filter calls.
- `moments.dfy`: the weighted mean, covariance and cross-covariance loops.
- `sigma.dfy`: augmentation and sigma points.
- `ctrv.dfy`: the motion law.
- `lidar.dfy` and `radar.dfy`: the two updates.
- `ukf.dfy`: the state machine as a function `Process`, plus the class `UKF`.
  Its methods are proved to move the fields exactly as `Process` and its
  parts say.

## Behaviour of the code worth knowing

- `normalizeAngle` wraps into [-pi, pi): closed at -pi and open at +pi, so
  pi wraps to -pi.
- A previous timestamp of 0 counts as "no previous timestamp". So when the
  first reading has timestamp 0, the second reading is predicted with dt = 0,
  not with the real elapsed time. `Ukf.ZeroTimestampKeepsMean` states the
  result: a reading from a disabled sensor then leaves the mean unchanged.
- Covariance symmetry after a lidar update is proved only on one condition:
  the 2x2 inverse must map symmetric matrices to symmetric ones
  (`Numerics.SymmetricInverse2`).

## Model

| member | source | states |
|---|---|---|
| Angles.NormalizeAngle | src/ukf.cpp:91-93 | the wrapped angle lies in [-pi, pi) and differs from the input by a whole number of turns |
| Angles.NormalizeAngleUnique | src/ukf.cpp:91-93 | any angle in [-pi, pi) that is a whole number of turns from a is the wrap of a |
| Angles.NormalizeAngleFixedPoints | src/ukf.cpp:91-93 | the wrap leaves a unchanged if and only if a is already in [-pi, pi) |
| Angles.NormalizeAngleIdempotent | src/ukf.cpp:91-93 | wrapping twice equals wrapping once |
| Angles.NormalizeAnglePeriodic | src/ukf.cpp:91-93 | adding k whole turns does not change the wrap |
| Angles.NormalizeAngleZero | src/ukf.cpp:91-93 | a zero difference wraps to zero |
| Weights.SigmaWeights | src/ukf.cpp:71-80 | the loop yields 2 n_aug + 1 weights: lambda / (lambda + n_aug) first, then 0.5 / (n_aug + lambda) for every other point |
| Weights.WeightsSumToOne | src/ukf.cpp:75-79 | these weights sum to exactly 1 for every n_aug and every lambda with lambda + n_aug != 0 |
| Weights.UkfWeightValues | src/ukf.cpp:65-80 | with n_aug = 7 and lambda = 3 - 7, the centre weight is -4/3 and each of the other 14 is 1/6 |
| Moments.Residual | src/ukf.cpp:287-291 | a difference with its angular component wrapped into [-pi, pi) by whole turns; the other components are the plain differences |
| Moments.WeightedMean | src/ukf.cpp:277-281 | the weighted sum of the points has their dimension |
| Moments.WeightedSum | src/ukf.cpp:277-281 | w[0] pts[0] + ... + w[k-1] pts[k-1] has dimension n; ComputeMean and WeightedSumPrefix state what it adds up to |
| Moments.ComputeMean | src/ukf.cpp:277-281 | the accumulation loop yields the weighted mean of the points |
| Moments.ComputeCovariance | src/ukf.cpp:283-295 | the accumulation loop yields the sum of w_i d_i d_i^T, with d_i the wrapped difference from the mean |
| Moments.ComputeCrossCovariance | src/ukf.cpp:422-438 | the loop yields the sum of w_i dx_i dz_i^T, with both differences wrapped (heading and bearing) |
| Moments.WeightedCovariance | src/ukf.cpp:283-295 | the covariance of n-dimensional points is n x n |
| Moments.WeightedCrossCovariance | src/ukf.cpp:422-438 | the cross-covariance of 5- and 3-dimensional points is 5 x 3 |
| Moments.CovarianceSymmetric | src/ukf.cpp:283-295 | a covariance built from weighted outer products is symmetric, whatever the weights and points |
| Moments.WeightedSumPrefix | src/ukf.cpp:277-281 | cutting every point to its first m components cuts the weighted sum the same way |
| Sigma.AugmentedMean | src/ukf.cpp:190-196 | x_aug is x followed by two zeros |
| Sigma.AugmentedCovariance | src/ukf.cpp:198-202 | P_aug holds P in the top-left block, std_a^2 and std_yawdd^2 on the rest of the diagonal, and zero elsewhere |
| Sigma.AugmentedCovarianceSymmetric | src/ukf.cpp:198-202 | augmenting a symmetric P gives a symmetric P_aug |
| Sigma.SigmaPoints | src/ukf.cpp:207-213 | 15 augmented points, of which column 0 is x_aug |
| Sigma.SigmaPoint | src/ukf.cpp:208-213 | column i of Xsig_aug is an augmented 7-vector; SigmaPointEntry and SigmaPointsPaired give its entries |
| Sigma.GenerateSigmaPoints | src/ukf.cpp:207-213 | the loop fills column i + 1 with x_aug + spread L_i and column i + 8 with x_aug - spread L_i |
| Sigma.SigmaPointsPaired | src/ukf.cpp:209-213 | columns i + 1 and i + 8 add up to 2 x_aug |
| Sigma.SigmaPointsMean | src/ukf.cpp:207-213 | with the filter's weights, the weighted mean of the sigma points is x_aug, for any square-root matrix and spread (the unscented-transform identity) |
| Ctrv.CtrvPoint | src/ukf.cpp:225-266 | v, yaw and yawd of a moved point follow the noise terms; off the turning branch the position moves along the old heading by v dt + nu_a dt^2 / 2 |
| Ctrv.PositionStep | src/ukf.cpp:239-247 | the position after dt on the turning or the straight branch; a point with zero speed stays where it is on either branch |
| Ctrv.CtrvTurning | src/ukf.cpp:240-243 | on the turning branch (abs(yawd) > 0.001) the position moves along the circle of radius v / yawd, plus the acceleration offset |
| Ctrv.PredictSigmaPoints | src/ukf.cpp:223-267 | the loop moves every column of Xsig_aug by the CTRV law, in order |
| Ctrv.PositionStepZero | src/ukf.cpp:239-247 | with dt = 0 the position does not move on either branch |
| Ctrv.CtrvZeroStep | src/ukf.cpp:225-266 | with dt = 0 every moved point equals the first five components of its augmented point |
| Ctrv.CtrvNoiseFree | src/ukf.cpp:249-259 | with zero noise terms, speed and yaw rate stay constant and the heading turns by yawd dt |
| Ctrv.PositionStepTurningFlow | src/ukf.cpp:240-243 | on the turning branch, moving by t1 and then by t2 from the new heading ends where moving by t1 + t2 does |
| Ctrv.PositionStepStraightFlow | src/ukf.cpp:244-247 | at zero yaw rate, two straight moves add up to one |
| Ctrv.CtrvFlow | src/ukf.cpp:239-251 | noise-free CTRV motion composes over time when the point is turning or its yaw rate is zero |
| Lidar.LaserNoise | src/ukf.cpp:324-326 | R_laser is symmetric with a non-negative diagonal |
| Lidar.LaserProjection | src/ukf.cpp:327-335 | z_pred = H x is (px, py) |
| Lidar.LaserRowsOfP | src/ukf.cpp:327-338 | H P is the first two rows of P |
| Lidar.LaserInnovationCovariance | src/ukf.cpp:337-338 | S = H P H^T + R is the position block of P plus R |
| Lidar.LaserGain | src/ukf.cpp:339-341 | K = P H^T S^-1 is 5 x 2; LaserGainEntry gives every entry |
| Lidar.LaserInnovationSymmetric | src/ukf.cpp:337-338 | S is symmetric when P and R are |
| Lidar.LaserGainEntry | src/ukf.cpp:339-341 | K = P H^T S^-1 combines only the two position columns of P |
| Lidar.LaserCovarianceEntry | src/ukf.cpp:345-347 | row i of (I - K H) P is row i of P less K[i][0] times row 0 and K[i][1] times row 1 |
| Lidar.LaserCovarianceUpdate | src/ukf.cpp:345-347 | (I - K H) P is 5 x 5; LaserCovarianceEntry gives every entry |
| Lidar.LidarUpdate | src/ukf.cpp:303-347 | the lidar update returns a 5-vector and a 5 x 5 covariance |
| Lidar.LidarUpdateMean | src/ukf.cpp:335-344 | the new mean is x plus the gain times the position residual z - (px, py) |
| Lidar.LidarUpdateCovariance | src/ukf.cpp:345-347 | the new covariance is P less the gain times the position rows of P |
| Lidar.LidarMatchingReading | src/ukf.cpp:335-344 | a reading equal to the predicted position leaves the mean unchanged, whatever the gain |
| Lidar.CovarianceUpdateSymmetric | src/ukf.cpp:339-347 | (I - K H) P with K = P H^T Si is symmetric when P and Si are |
| Lidar.LidarUpdateSymmetric | src/ukf.cpp:335-347 | the lidar update keeps P symmetric when the inverse of S is symmetric |
| Radar.Clamp | src/ukf.cpp:382-384 | a clamped coordinate is never zero, has magnitude at least 1e-8, and is either the input unchanged or +1e-8 |
| Radar.ClampIdempotent | src/ukf.cpp:382-384 | clamping twice equals clamping once |
| Radar.RadarPoint | src/ukf.cpp:380-394 | a point in radar space has three components and a positive range, so the division for the range rate is defined |
| Radar.RadarSigmaPoints | src/ukf.cpp:375-395 | Zsig has one 3-vector per predicted sigma point |
| Radar.ProjectSigmaPoints | src/ukf.cpp:375-395 | the loop fills Zsig column by column with the radar model |
| Radar.RadarNoise | src/ukf.cpp:81-86 | R_radar is symmetric with a non-negative diagonal |
| Radar.RadarInnovationSymmetric | src/ukf.cpp:404-418 | S, the wrapped covariance of Zsig plus R_radar, is symmetric |
| Radar.RadarInnovationCovariance | src/ukf.cpp:404-418 | S less the noise R is symmetric for every R: the wrapped sample covariance of Zsig around z_pred |
| Radar.RadarBearingTurns | src/ukf.cpp:443-447 | a reading whose bearing differs by whole turns gives the same update |
| Radar.ResidualSelf | src/ukf.cpp:443-447 | the wrapped residual of a reading against itself is zero |
| Radar.RadarMatchingReading | src/ukf.cpp:441-461 | a reading equal to the predicted reading leaves the mean unchanged, whatever the gain |
| Radar.GainSandwichEntry | src/ukf.cpp:462 | entry (i, j) of K S K^T written out for a 5 x 3 gain |
| Radar.GainSandwichSymmetric | src/ukf.cpp:462 | K S K^T is symmetric when S is |
| Radar.RadarCorrectSymmetric | src/ukf.cpp:441-462 | P - K S K^T stays symmetric when P and S are |
| Radar.RadarUpdateSymmetric | src/ukf.cpp:364-462 | the full radar update keeps P symmetric |
| Radar.RadarCorrect | src/ukf.cpp:441-462 | the radar correction returns a 5-vector and a 5 x 5 covariance |
| Radar.RadarGain | src/ukf.cpp:441 | K = Tc S^-1 is 5 x 3; RadarCorrectSymmetric and RadarMatchingReading state what the correction does with it |
| Radar.RadarUpdate | src/ukf.cpp:364-462 | the radar update returns a 5-vector and a 5 x 5 covariance |
| Ukf.InitialState | src/ukf.cpp:109-133 | the seeded state has zero speed, heading and yaw rate; a lidar seed takes the measured position; a radar seed takes the position (ro cos(theta), ro sin(theta)) of the measured range ro and bearing theta |
| Ukf.LaserSeedRoundTrip | src/ukf.cpp:128-130 | projecting a lidar seed back through H gives the reading |
| Ukf.TimeStep | src/ukf.cpp:141-146 | dt is 0 when the previous timestamp is 0, and otherwise the microsecond difference over 10^6 |
| Ukf.PredictedSigmaPoints | src/ukf.cpp:190-267 | Xsig_pred has 15 columns of dimension 5 |
| Ukf.PredictFromSigma | src/ukf.cpp:277-295 | the predicted covariance is symmetric, whatever the points |
| Ukf.ZeroStepKeepsMean | src/ukf.cpp:181-281 | a prediction with dt = 0 leaves the mean unchanged |
| Ukf.Correct | src/ukf.cpp:157-169 | a reading from a disabled sensor leaves the predicted estimate unchanged; an enabled radar reading gets exactly the radar update, and an enabled lidar reading exactly the lidar update on its first two values |
| Ukf.Process | src/ukf.cpp:99-174 | after every reading the filter is initialised, the shapes are kept, and the previous timestamp is the reading's |
| Ukf.FirstMeasurementOnlySeeds | src/ukf.cpp:100-139 | the first reading seeds x, sets P to the identity, and runs no prediction (Xsig_pred is untouched) |
| Ukf.DisabledSensorOnlyPredicts | src/ukf.cpp:142-169 | later readings from a disabled sensor leave exactly the predicted state |
| Ukf.EnabledSensorUpdates | src/ukf.cpp:142-169 | a later reading from an enabled sensor runs one prediction (Xsig_pred becomes the predicted sigma points), then the radar update for a radar reading or the lidar update for a lidar reading, on the predicted estimate |
| Ukf.ZeroTimestampKeepsMean | src/ukf.cpp:141-150 | with a previous timestamp of 0, a reading from a disabled sensor leaves the mean unchanged |
| Ukf.ProcessKeepsSymmetry | src/ukf.cpp:99-174 | every call leaves P symmetric, given that the 2x2 inverse keeps symmetry |
| Ukf.UKF.constructor | src/ukf.cpp:26-87 | both sensors are enabled, the filter is not initialised, the previous timestamp is 0, and the weights are the sigma weights for n_aug = 7 and lambda = -4 |
| Ukf.UKF.ProcessMeasurement | src/ukf.cpp:99-174 | the fields move exactly as Process says |
| Ukf.UKF.Dispatch | src/ukf.cpp:157-169 | the radar or the lidar update runs only for an enabled sensor of that kind |
| Ukf.UKF.Prediction | src/ukf.cpp:181-297 | Xsig_pred becomes the moved sigma points of the old x and P; x and P become their weighted mean and covariance |
| Ukf.UKF.UpdateLidar | src/ukf.cpp:303-358 | x and P become the lidar update on the first two values of the reading |
| Ukf.UKF.UpdateRadar | src/ukf.cpp:364-463 | x and P become the radar update of the current sigma points |

## Left out

- Floating-point rounding. All arithmetic is on unbounded reals. In
  particular the radar seed reads range and bearing into `float` variables,
  and that narrowing is not modelled.
- sin, cos, sqrt, atan2, the Cholesky factor `llt().matrixL()` and
  `inverse()` are parameters without definitions. A Cholesky failure, which
  the library ignores silently, and a singular S cannot be expressed.
- Positive-definiteness of P is not modelled.
- The NIS values (`epsilon`) that both updates compute are left out. They
  are never stored or returned.
- The debug printing under `_DEBUG`, `_DEBUG_NIS` and `_DEBUG_NIS_RADAR` is
  left out.
- The unused `rodot` local is left out.
- The placeholder `x_ << 1, 1, 1, 1, 1` is left out, because it is
  overwritten at once.
- The uninitialised contents of `x_` and `P_` before the first reading are
  modelled as zeros.
- `Xsig_pred_` before the first prediction is modelled as empty.
- `MeasurementPackage` and `ukf.h` are not part of this model.
  - A reading is modelled as a datatype with a sensor kind, an integer
    timestamp and the raw values.
  - `lambda_` is taken to be a `double`. Under integer division the centre
    weight would be -1, not -4/3.
  - Timestamp overflow is not modelled.
- Ukf.UKF.UpdateRadar: requires the 15 predicted sigma points. Before any
  prediction, `Xsig_pred_` has no columns in the source, and the update would
  read outside them.
- Ukf.WellFormed: a radar reading must have exactly three values and a lidar
  reading at least two. The source reads that many without checking.
- Moments.WeightedSum: its own contract states only the dimension.
- Sigma.SigmaPoint: its own contract states only the dimension.
- Lidar.LaserGain: its own contract states only the shape.
- Lidar.LaserCovarianceUpdate: its own contract states only the shape.
- Radar.RadarGain: its own contract states only the shape.
- Lidar.LidarUpdate, Radar.RadarUpdate, Radar.RadarCorrect: their own
  contracts state only shapes. The entries are stated by LidarUpdateMean,
  LidarUpdateCovariance and the symmetry and matching-reading lemmas.
- Ukf.ProcessKeepsSymmetry: for the lidar step it assumes that the 2x2
  inverse maps symmetric matrices to symmetric ones. The library inverse is
  not modelled, so this cannot be derived.
- Ukf.ZeroStepKeepsMean: only the mean half of "a prediction with dt = 0
  changes nothing" is proved. The covariance half is not stated: the
  Cholesky factor is unknown, and the heading wrap breaks it whenever a sigma
  point's heading differs from the mean by pi or more.
- Ctrv.CtrvFlow: holds only when the point is on the turning branch or its
  yaw rate is exactly zero. For 0 < abs(yawd) <= 0.001 the straight branch
  moves the position along the old heading while the heading itself turns.
