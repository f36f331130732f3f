/** The constant turn rate and velocity (CTRV) motion law applied to each
    augmented sigma point (second section of UKF::Prediction). */
module Ctrv {
  import opened LinAlg
  import opened Numerics
  import opened Sigma

  /** Below this yaw rate the point is moved along a straight line, to avoid
      dividing by a yaw rate near zero. */
  const YawRateThreshold: real := 0.001

  /** fabs(yawd) > 0.001: the curved-motion formula applies. */
  predicate IsTurning(yawd: real) {
    Abs(yawd) > YawRateThreshold
  }

  /** v / yawd: the radius of the circle a point turning at yawd with speed v
      follows. */
  function TurnRadius(v: real, yawd: real): real
    requires yawd != 0.0
  {
    v / yawd
  }

  /** The position after dt before the noise terms are added: along a circle
      when the point is turning, along a straight line at its heading
      otherwise. A point at rest stays where it is on either branch. */
  function PositionStep(px: real, py: real, v: real, yaw: real, yawd: real, dt: real, ops: Ops): (r: (real, real))
    ensures v == 0.0 ==> r == (px, py)
  {
    if IsTurning(yawd) then
      assert v == 0.0 ==> TurnRadius(v, yawd) == 0.0;
      (px + TurnRadius(v, yawd) * (ops.sin(yaw + yawd * dt) - ops.sin(yaw)),
       py + TurnRadius(v, yawd) * (ops.cos(yaw) - ops.cos(yaw + yawd * dt)))
    else
      assert v == 0.0 ==> v * dt * ops.cos(yaw) == 0.0 && v * dt * ops.sin(yaw) == 0.0;
      (px + v * dt * ops.cos(yaw), py + v * dt * ops.sin(yaw))
  }

  /** One column of Xsig_pred_: the augmented point p = (px, py, v, yaw, yawd,
      nu_a, nu_yawdd) moved forward by dt, with the two noise terms folded in.
      Speed and yaw rate change only through the noise terms; the heading turns
      by yawd * dt plus the yaw-acceleration noise; off the turning branch the
      point moves along its heading by the distance covered in dt at constant
      acceleration nu_a (CtrvTurning gives the other branch). */
  function CtrvPoint(p: Vector, dt: real, ops: Ops): (r: Vector)
    requires |p| == NAug
    ensures |r| == NX
    ensures r[2] == p[2] + p[5] * dt
    ensures r[3] == p[3] + p[4] * dt + 0.5 * p[6] * dt * dt
    ensures r[4] == p[4] + p[6] * dt
    ensures !IsTurning(p[4]) ==> r[0] == p[0] + (p[2] * dt + 0.5 * p[5] * dt * dt) * ops.cos(p[3])
    ensures !IsTurning(p[4]) ==> r[1] == p[1] + (p[2] * dt + 0.5 * p[5] * dt * dt) * ops.sin(p[3])
  {
    var px, py, v, yaw, yawd, nuA, nuYawdd := p[0], p[1], p[2], p[3], p[4], p[5], p[6];
    var pos := PositionStep(px, py, v, yaw, yawd, dt, ops);
    [ pos.0 + 0.5 * nuA * dt * dt * ops.cos(yaw),
      pos.1 + 0.5 * nuA * dt * dt * ops.sin(yaw),
      v + nuA * dt,
      yaw + yawd * dt + 0.5 * nuYawdd * dt * dt,
      yawd + nuYawdd * dt ]
  }

  /** On the turning branch the point follows the circle of radius v / yawd
      for the turn yawd * dt, plus the acceleration offset along its old
      heading. */
  lemma CtrvTurning(p: Vector, dt: real, ops: Ops)
    requires |p| == NAug && IsTurning(p[4])
    ensures var r := CtrvPoint(p, dt, ops);
            && r[0] == p[0] + p[2] / p[4] * (ops.sin(p[3] + p[4] * dt) - ops.sin(p[3])) + 0.5 * p[5] * dt * dt * ops.cos(p[3])
            && r[1] == p[1] + p[2] / p[4] * (ops.cos(p[3]) - ops.cos(p[3] + p[4] * dt)) + 0.5 * p[5] * dt * dt * ops.sin(p[3])
  {
    var pos := PositionStep(p[0], p[1], p[2], p[3], p[4], dt, ops);
    assert pos.0 == p[0] + p[2] / p[4] * (ops.sin(p[3] + p[4] * dt) - ops.sin(p[3]));
    assert pos.1 == p[1] + p[2] / p[4] * (ops.cos(p[3]) - ops.cos(p[3] + p[4] * dt));
  }

  /** The prediction loop over the sigma points: column i of Xsig_pred_ is
      column i of Xsig_aug moved by the CTRV law. */
  method PredictSigmaPoints(Xaug: seq<Vector>, dt: real, ops: Ops) returns (Xpred: seq<Vector>)
    requires |Xaug| == NSigma && AllOfLength(Xaug, NAug)
    ensures |Xpred| == NSigma && AllOfLength(Xpred, NX)
    ensures forall i :: 0 <= i < NSigma ==> Xpred[i] == CtrvPoint(Xaug[i], dt, ops)
  {
    var cols := new Vector[NSigma];
    for i := 0 to NSigma
      invariant forall j :: 0 <= j < i ==> cols[j] == CtrvPoint(Xaug[j], dt, ops)
    {
      cols[i] := CtrvPoint(Xaug[i], dt, ops);
    }
    Xpred := cols[..];
  }

  /** With dt = 0 the position does not move, on either branch. */
  lemma PositionStepZero(px: real, py: real, v: real, yaw: real, yawd: real, dt: real, ops: Ops)
    requires dt == 0.0
    ensures PositionStep(px, py, v, yaw, yawd, dt, ops) == (px, py)
  {
    assert yaw + yawd * dt == yaw;
  }

  /** With dt = 0 nothing moves: every propagated point is the first five
      components of its augmented point, on both branches and whatever the
      noise terms. */
  lemma CtrvZeroStep(p: Vector, ops: Ops)
    requires |p| == NAug
    ensures CtrvPoint(p, 0.0, ops) == p[..NX]
  {
    PositionStepZero(p[0], p[1], p[2], p[3], p[4], 0.0, ops);
  }

  /** Noise-free motion of a state x by dt: the position step, with speed and
      yaw rate kept and the heading turned at the constant rate. */
  function QuietStep(x: Vector, dt: real, ops: Ops): (r: Vector)
    requires |x| == NX
    ensures |r| == NX
  {
    var pos := PositionStep(x[0], x[1], x[2], x[3], x[4], dt, ops);
    [pos.0, pos.1, x[2], x[3] + x[4] * dt, x[4]]
  }

  /** Without noise (the point x_aug, whose noise terms are zero) the CTRV
      law is the quiet step: speed and yaw rate stay
      constant and the heading turns by yawd * dt, the "constant turn rate and
      velocity" of the model's name. */
  lemma CtrvNoiseFree(x: Vector, dt: real, ops: Ops)
    requires |x| == NX
    ensures CtrvPoint(AugmentedMean(x), dt, ops) == QuietStep(x, dt, ops)
  {
    var p := AugmentedMean(x);
    assert p[0] == x[0] && p[1] == x[1] && p[2] == x[2] && p[3] == x[3] && p[4] == x[4];
    var pos := PositionStep(x[0], x[1], x[2], x[3], x[4], dt, ops);
    var r := CtrvPoint(p, dt, ops);
    assert r[0] == pos.0 + 0.5 * p[5] * dt * dt * ops.cos(p[3]);
    assert r[1] == pos.1 + 0.5 * p[5] * dt * dt * ops.sin(p[3]);
    assert 0.5 * p[5] * dt * dt * ops.cos(p[3]) == 0.0 && 0.5 * p[5] * dt * dt * ops.sin(p[3]) == 0.0;
    assert r[3] == x[3] + x[4] * dt;
  }

  /** Two turns along the same circle make one: turning for t1 and then for
      t2 from the new heading ends where turning for t1 + t2 does. */
  lemma PositionStepTurningFlow(px: real, py: real, v: real, yaw: real, yawd: real, t1: real, t2: real, ops: Ops)
    requires IsTurning(yawd)
    ensures var mid := PositionStep(px, py, v, yaw, yawd, t1, ops);
            PositionStep(mid.0, mid.1, v, yaw + yawd * t1, yawd, t2, ops)
            == PositionStep(px, py, v, yaw, yawd, t1 + t2, ops)
  {
    var k := TurnRadius(v, yawd);
    var yaw1, yaw2 := yaw + yawd * t1, yaw + yawd * (t1 + t2);
    assert yaw1 + yawd * t2 == yaw2;
    var mid := PositionStep(px, py, v, yaw, yawd, t1, ops);
    var end := PositionStep(mid.0, mid.1, v, yaw1, yawd, t2, ops);
    Telescope(px, mid.0, end.0, k, ops.sin(yaw), ops.sin(yaw1), ops.sin(yaw2));
    TelescopeDown(py, mid.1, end.1, k, ops.cos(yaw), ops.cos(yaw1), ops.cos(yaw2));
    var direct := PositionStep(px, py, v, yaw, yawd, t1 + t2, ops);
    assert direct.0 == px + k * (ops.sin(yaw2) - ops.sin(yaw));
    assert direct.1 == py + k * (ops.cos(yaw) - ops.cos(yaw2));
    assert end.0 == direct.0 && end.1 == direct.1;
  }

  /** Two straight moves at zero yaw rate add up to one. */
  lemma PositionStepStraightFlow(px: real, py: real, v: real, yaw: real, yawd: real, t1: real, t2: real, ops: Ops)
    requires yawd == 0.0
    ensures var mid := PositionStep(px, py, v, yaw, yawd, t1, ops);
            PositionStep(mid.0, mid.1, v, yaw + yawd * t1, yawd, t2, ops)
            == PositionStep(px, py, v, yaw, yawd, t1 + t2, ops)
  {
    var yaw1 := yaw + yawd * t1;
    assert yaw1 == yaw && Abs(yawd) == 0.0 && !IsTurning(yawd);
    var c, s := ops.cos(yaw), ops.sin(yaw);
    var mid := PositionStep(px, py, v, yaw, yawd, t1, ops);
    assert mid.0 == px + v * t1 * c && mid.1 == py + v * t1 * s;
    var end := PositionStep(mid.0, mid.1, v, yaw1, yawd, t2, ops);
    assert end.0 == mid.0 + v * t2 * c && end.1 == mid.1 + v * t2 * s;
    var direct := PositionStep(px, py, v, yaw, yawd, t1 + t2, ops);
    assert direct.0 == px + v * (t1 + t2) * c && direct.1 == py + v * (t1 + t2) * s;
    assert v * t1 * c + v * t2 * c == v * (t1 + t2) * c;
    assert v * t1 * s + v * t2 * s == v * (t1 + t2) * s;
  }

  /** Noise-free CTRV motion is a flow, when the point is on the turning branch
      or its yaw rate is exactly zero: moving by t1 and then by t2 lands where
      moving by t1 + t2 does, for any sin and cos. (For a yaw rate of at most
      0.001 in magnitude but not zero the straight branch keeps the old
      heading for the position while the heading itself turns, so the two
      paths differ.) */
  lemma CtrvFlow(x: Vector, t1: real, t2: real, ops: Ops)
    requires |x| == NX && (IsTurning(x[4]) || x[4] == 0.0)
    ensures QuietStep(QuietStep(x, t1, ops), t2, ops) == QuietStep(x, t1 + t2, ops)
  {
    var mid := QuietStep(x, t1, ops);
    var pos := PositionStep(x[0], x[1], x[2], x[3], x[4], t1, ops);
    assert mid[0] == pos.0 && mid[1] == pos.1 && mid[2] == x[2] && mid[3] == x[3] + x[4] * t1 && mid[4] == x[4];
    if IsTurning(x[4]) {
      PositionStepTurningFlow(x[0], x[1], x[2], x[3], x[4], t1, t2, ops);
    } else {
      PositionStepStraightFlow(x[0], x[1], x[2], x[3], x[4], t1, t2, ops);
    }
    var end, direct := QuietStep(mid, t2, ops), QuietStep(x, t1 + t2, ops);
    assert mid[3] + mid[4] * t2 == x[3] + x[4] * (t1 + t2);
    assert end[0] == direct[0] && end[1] == direct[1];
    assert end[2] == direct[2] && end[3] == direct[3] && end[4] == direct[4];
  }

  /** b + k * (s1 - s0) + k * (s2 - s1) == b + k * (s2 - s0). */
  lemma Telescope(b: real, a: real, c: real, k: real, s0: real, s1: real, s2: real)
    requires a == b + k * (s1 - s0) && c == a + k * (s2 - s1)
    ensures c == b + k * (s2 - s0)
  {
  }

  /** b + k * (s0 - s1) + k * (s1 - s2) == b + k * (s0 - s2). */
  lemma TelescopeDown(b: real, a: real, c: real, k: real, s0: real, s1: real, s2: real)
    requires a == b + k * (s0 - s1) && c == a + k * (s1 - s2)
    ensures c == b + k * (s0 - s2)
  {
  }
}
