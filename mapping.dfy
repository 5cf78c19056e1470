/** The pure transform from a field position to camera pointing: pan and tilt
    angles, and a zoom level chosen from the distance to the field centre. */
module Mapping {
  import opened Numeric
  import opened Config

  /** The camera's fixed maximum pan and tilt travel, in whole degrees. */
  const PanLimit: int := 129
  const TiltLimit: int := 59

  /** The same travel as real angles, the bounds of the clamp. */
  const PanTravel: real := PanLimit as real
  const TiltTravel: real := TiltLimit as real

  /** Pan before clamping: the position normalised by the half field width. */
  function RawPan(c: CameraConfig, x: real): real
    requires c.fieldWidth != 0.0
  {
    x / (c.fieldWidth / 2.0) * PanTravel * c.panScale
  }

  /** Tilt before clamping: the position normalised by the half field height. */
  function RawTilt(c: CameraConfig, y: real): real
    requires c.fieldHeight != 0.0
  {
    y / (c.fieldHeight / 2.0) * TiltTravel * c.tiltScale
  }

  /** `calculate_camera_angles`: (pan, tilt) in degrees, each clamped to the travel. */
  function CameraAngles(c: CameraConfig, x: real, y: real): (a: (real, real))
    requires Computable(c)
    ensures -PanTravel <= a.0 <= PanTravel
    ensures -TiltTravel <= a.1 <= TiltTravel
    ensures -PanTravel <= RawPan(c, x) <= PanTravel ==> a.0 == RawPan(c, x)
    ensures -TiltTravel <= RawTilt(c, y) <= TiltTravel ==> a.1 == RawTilt(c, y)
    ensures RawPan(c, x) > PanTravel ==> a.0 == PanTravel
    ensures RawPan(c, x) < -PanTravel ==> a.0 == -PanTravel
    ensures RawTilt(c, y) > TiltTravel ==> a.1 == TiltTravel
    ensures RawTilt(c, y) < -TiltTravel ==> a.1 == -TiltTravel
  {
    (Clamp(-PanTravel, PanTravel, RawPan(c, x)), Clamp(-TiltTravel, TiltTravel, RawTilt(c, y)))
  }

  /** With unit scale the pan is exactly the full travel at either touch line. */
  lemma PanAtFieldEdge(c: CameraConfig, y: real)
    requires Computable(c) && c.panScale == 1.0
    ensures CameraAngles(c, c.fieldWidth / 2.0, y).0 == PanTravel
    ensures CameraAngles(c, -c.fieldWidth / 2.0, y).0 == -PanTravel
  {
    assert RawPan(c, c.fieldWidth / 2.0) == PanTravel;
    assert RawPan(c, -c.fieldWidth / 2.0) == -PanTravel;
  }

  /** With unit scale the tilt is exactly the full travel at either goal line. */
  lemma TiltAtFieldEdge(c: CameraConfig, x: real)
    requires Computable(c) && c.tiltScale == 1.0
    ensures CameraAngles(c, x, c.fieldHeight / 2.0).1 == TiltTravel
    ensures CameraAngles(c, x, -c.fieldHeight / 2.0).1 == -TiltTravel
  {
    assert RawTilt(c, c.fieldHeight / 2.0) == TiltTravel;
    assert RawTilt(c, -c.fieldHeight / 2.0) == -TiltTravel;
  }

  /** With unit scale and a position inside the field, pan is proportional to x:
      the fraction of the half width times the full travel. */
  lemma PanLinearInsideField(c: CameraConfig, x: real, y: real)
    requires Computable(c) && c.fieldWidth > 0.0 && c.panScale == 1.0
    requires -c.fieldWidth / 2.0 <= x <= c.fieldWidth / 2.0
    ensures CameraAngles(c, x, y).0 == PanTravel * (x / (c.fieldWidth / 2.0))
  {
    var h := c.fieldWidth / 2.0;
    var f := x / h;
    assert -1.0 <= f <= 1.0 by {
      assert f * h == x;
      assert (1.0 - f) * h == h - x;
      assert (1.0 + f) * h == h + x;
      PositiveFactor(1.0 - f, h);
      PositiveFactor(1.0 + f, h);
    }
    assert RawPan(c, x) == PanTravel * f;
  }

  /** For a positive field width and a non-negative scale, pan never decreases as x grows. */
  lemma PanMonotone(c: CameraConfig, x1: real, x2: real, y: real)
    requires Computable(c) && c.fieldWidth > 0.0 && c.panScale >= 0.0
    requires x1 <= x2
    ensures CameraAngles(c, x1, y).0 <= CameraAngles(c, x2, y).0
  {
    var h := c.fieldWidth / 2.0;
    assert x1 / h <= x2 / h by {
      assert x2 / h - x1 / h == (x2 - x1) / h;
    }
    var k := PanTravel * c.panScale;
    assert RawPan(c, x1) == (x1 / h) * k;
    assert RawPan(c, x2) == (x2 / h) * k;
    assert (x1 / h) * k <= (x2 / h) * k by {
      assert (x2 / h) * k - (x1 / h) * k == (x2 / h - x1 / h) * k;
    }
  }

  /** A factor that times a positive number gives a non-negative one is non-negative. */
  lemma PositiveFactor(a: real, b: real)
    requires b > 0.0 && a * b >= 0.0
    ensures a >= 0.0
  {
    if a < 0.0 { PositiveProduct(-a, b); }
  }

  lemma PositiveProduct(a: real, b: real)
    requires a > 0.0 && b > 0.0
    ensures a * b > 0.0
  {
  }

  /** The zoom level interpolated linearly over the distance band, before clamping. */
  function LinearZoom(c: CameraConfig, d: real): real
    requires c.minDistance < c.maxDistance
  {
    c.maxZoom as real
      - (c.maxZoom - c.minZoom) as real * (d - c.minDistance) / (c.maxDistance - c.minDistance)
  }

  /** `calculate_zoom` once the distance to the field centre is known. */
  function ZoomForDistance(c: CameraConfig, d: real): (z: int)
    ensures c.minZoom <= c.maxZoom ==> c.minZoom <= z <= c.maxZoom
    ensures d <= c.minDistance ==> z == c.maxZoom
    ensures c.minDistance < d && c.maxDistance <= d ==> z == c.minZoom
  {
    if d <= c.minDistance then c.maxZoom
    else if d >= c.maxDistance then c.minZoom
    else
      var zoom := LinearZoom(c, d);
      var clamped := Clamp(c.minZoom as real, c.maxZoom as real, zoom);
      TruncBetweenZoom(c, clamped);
      Trunc(clamped)
  }

  /** Helper for the bound in `ZoomForDistance`. */
  lemma TruncBetweenZoom(c: CameraConfig, r: real)
    requires c.minZoom <= c.maxZoom ==> c.minZoom as real <= r <= c.maxZoom as real
    ensures c.minZoom <= c.maxZoom ==> c.minZoom <= Trunc(r) <= c.maxZoom
  {
    if c.minZoom <= c.maxZoom {
      TruncBetween(c.minZoom, c.maxZoom, r);
    }
  }

  /** `calculate_zoom`: the distance is `sqrt(x*x + y*y)`, where `sqrt` is the
      platform's square root, a parameter of the model. */
  function CalculateZoom(c: CameraConfig, x: real, y: real, sqrt: real -> real): (z: int)
    ensures c.minZoom <= c.maxZoom ==> c.minZoom <= z <= c.maxZoom
  {
    ZoomForDistance(c, sqrt(x * x + y * y))
  }

  /** Interpolation is non-increasing in the distance. */
  lemma LinearZoomMonotone(c: CameraConfig, d1: real, d2: real)
    requires c.minDistance < c.maxDistance && c.minZoom <= c.maxZoom
    requires d1 <= d2
    ensures LinearZoom(c, d1) >= LinearZoom(c, d2)
  {
    var zr := (c.maxZoom - c.minZoom) as real;
    var dr := c.maxDistance - c.minDistance;
    var q := zr / dr;
    assert zr * (d1 - c.minDistance) / dr == q * (d1 - c.minDistance);
    assert zr * (d2 - c.minDistance) / dr == q * (d2 - c.minDistance);
    assert q >= 0.0;
    assert q * (d2 - c.minDistance) - q * (d1 - c.minDistance) == q * (d2 - d1);
  }

  /** Zoom never increases as the ball moves away from the field centre. */
  lemma {:induction false} ZoomNonIncreasing(c: CameraConfig, d1: real, d2: real)
    requires c.minZoom <= c.maxZoom
    requires d1 <= d2
    ensures ZoomForDistance(c, d1) >= ZoomForDistance(c, d2)
  {
    if c.minDistance < d1 && d2 < c.maxDistance {
      LinearZoomMonotone(c, d1, d2);
      var lo, hi := c.minZoom as real, c.maxZoom as real;
      var z1, z2 := LinearZoom(c, d1), LinearZoom(c, d2);
      assert Clamp(lo, hi, z2) <= Clamp(lo, hi, z1);
      TruncMonotone(Clamp(lo, hi, z2), Clamp(lo, hi, z1));
    }
  }

  /** Inside the band, with a non-negative zoom range, the zoom is the interpolated
      value rounded down: within one step below the exact linear value. */
  lemma ZoomWithinOneStep(c: CameraConfig, d: real)
    requires 0 <= c.minZoom <= c.maxZoom
    requires c.minDistance < d < c.maxDistance
    ensures ZoomForDistance(c, d) as real <= LinearZoom(c, d) < ZoomForDistance(c, d) as real + 1.0
  {
    var zr := (c.maxZoom - c.minZoom) as real;
    var dr := c.maxDistance - c.minDistance;
    var t := (d - c.minDistance) / dr;
    assert 0.0 < t < 1.0 by {
      assert t * dr == d - c.minDistance;
      assert (1.0 - t) * dr == c.maxDistance - d;
      PositiveFactor(t, dr);
      PositiveFactor(1.0 - t, dr);
    }
    assert LinearZoom(c, d) == c.maxZoom as real - zr * t;
    assert 0.0 <= zr * t <= zr by {
      assert zr - zr * t == zr * (1.0 - t);
    }
  }

  /** With the default configuration, a ball 3000 mm from the centre is zoomed to 50. */
  lemma DefaultZoomAtThreeMetres()
    ensures ZoomForDistance(DefaultConfig, 3000.0) == 50
  {
    assert LinearZoom(DefaultConfig, 3000.0) == 50.0;
    TruncOfInt(50);
  }

  /** Squaring is strictly increasing on the non-negative reals. */
  lemma SquareIncreasing(a: real, b: real)
    requires 0.0 <= a < b
    ensures a * a < b * b
  {
    assert b * b - a * a == (b - a) * (b + a);
    PositiveProduct(b - a, b + a);
  }

  /** `calculate_zoom` from a position, given an exact square root at that position. */
  lemma ZoomFromPosition(c: CameraConfig, x: real, y: real, sqrt: real -> real)
    requires sqrt(x * x + y * y) >= 0.0
    requires sqrt(x * x + y * y) * sqrt(x * x + y * y) == x * x + y * y
    ensures (x * x + y * y <= c.minDistance * c.minDistance && c.minDistance >= 0.0)
      ==> CalculateZoom(c, x, y, sqrt) == c.maxZoom
    ensures (x * x + y * y >= c.maxDistance * c.maxDistance && c.maxDistance > c.minDistance >= 0.0)
      ==> CalculateZoom(c, x, y, sqrt) == c.minZoom
  {
    var d := sqrt(x * x + y * y);
    if x * x + y * y <= c.minDistance * c.minDistance && c.minDistance >= 0.0 && d > c.minDistance {
      SquareIncreasing(c.minDistance, d);
    }
    if x * x + y * y >= c.maxDistance * c.maxDistance && c.maxDistance > c.minDistance >= 0.0 && d < c.maxDistance {
      SquareIncreasing(d, c.maxDistance);
    }
  }
}
