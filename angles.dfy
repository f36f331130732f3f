/** Heading and bearing angles, and their wrap into one turn around zero. */
module Angles {

  /** The double-precision value of pi (M_PI) the filter computes with, as an
      exact rational. */
  const Pi: real := 3.141592653589793115997963468544185161590576171875

  /** d is a whole number of turns: d / (2 * pi) is an integer. */
  predicate IsTurnMultiple(d: real) {
    (d / (2.0 * Pi)).Floor as real == d / (2.0 * Pi)
  }

  /** UKF::normalizeAngle: shifts a by whole turns into [-pi, pi). The interval
      is closed at -pi and open at +pi, as the floor-based formula gives. */
  function NormalizeAngle(a: real): (r: real)
    ensures -Pi <= r < Pi
    ensures IsTurnMultiple(a - r)
  {
    var k := ((a + Pi) / (2.0 * Pi)).Floor;
    assert (a - (a - 2.0 * Pi * k as real)) / (2.0 * Pi) == k as real;
    a - 2.0 * Pi * k as real
  }

  /** The wrap is the unique angle in [-pi, pi) a whole number of turns away
      from a: an independent characterisation of NormalizeAngle. */
  lemma NormalizeAngleUnique(a: real, r: real)
    requires -Pi <= r < Pi && IsTurnMultiple(a - r)
    ensures NormalizeAngle(a) == r
  {
    var m := ((a - r) / (2.0 * Pi)).Floor;
    assert a == r + 2.0 * Pi * m as real;
    var q := (a + Pi) / (2.0 * Pi);
    assert q == m as real + (r + Pi) / (2.0 * Pi);
    assert 0.0 <= (r + Pi) / (2.0 * Pi) < 1.0;
    assert q.Floor == m;
  }

  /** Angles already in [-pi, pi) are exactly the ones the wrap leaves alone. */
  lemma NormalizeAngleFixedPoints(a: real)
    ensures NormalizeAngle(a) == a <==> -Pi <= a < Pi
  {
    if -Pi <= a < Pi {
      assert IsTurnMultiple(a - a);
      NormalizeAngleUnique(a, a);
    }
  }

  /** Wrapping twice is the same as wrapping once. */
  lemma NormalizeAngleIdempotent(a: real)
    ensures NormalizeAngle(NormalizeAngle(a)) == NormalizeAngle(a)
  {
    NormalizeAngleFixedPoints(NormalizeAngle(a));
  }

  /** Adding whole turns to an angle does not change its wrap. */
  lemma NormalizeAnglePeriodic(a: real, k: int)
    ensures NormalizeAngle(a + 2.0 * Pi * k as real) == NormalizeAngle(a)
  {
    var r := NormalizeAngle(a);
    var m := ((a - r) / (2.0 * Pi)).Floor;
    assert (a + 2.0 * Pi * k as real - r) / (2.0 * Pi) == (m + k) as real;
    NormalizeAngleUnique(a + 2.0 * Pi * k as real, r);
  }

  /** A zero difference stays zero. */
  lemma NormalizeAngleZero()
    ensures NormalizeAngle(0.0) == 0.0
  {
    NormalizeAngleFixedPoints(0.0);
  }
}
