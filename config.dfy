/** The tunable geometry and zoom parameters of one camera installation. */
module Config {

  /** Field extent in millimetres (origin at the field centre), angle scale factors,
      zoom range and the distance band over which zoom is interpolated. */
  datatype CameraConfig = CameraConfig(
    fieldWidth: real,
    fieldHeight: real,
    panScale: real,
    tiltScale: real,
    minZoom: int,
    maxZoom: int,
    minDistance: real,
    maxDistance: real)

  /** The values a freshly constructed configuration holds. */
  const DefaultConfig: CameraConfig :=
    CameraConfig(6000.0, 4000.0, 1.0, 1.0, 0, 100, 1000.0, 5000.0)

  /** What the angle mapping needs to avoid a division by zero. */
  predicate Computable(c: CameraConfig) {
    c.fieldWidth != 0.0 && c.fieldHeight != 0.0
  }

  /** The intended invariant of a configuration: positive sizes and scales,
      an ordered zoom range and a proper distance band. */
  predicate WellFormed(c: CameraConfig) {
    && c.fieldWidth > 0.0 && c.fieldHeight > 0.0
    && c.panScale > 0.0 && c.tiltScale > 0.0
    && 0 <= c.minZoom <= c.maxZoom
    && 0.0 < c.minDistance < c.maxDistance
  }

  lemma DefaultIsWellFormed()
    ensures WellFormed(DefaultConfig) && Computable(DefaultConfig)
  {
  }
}
