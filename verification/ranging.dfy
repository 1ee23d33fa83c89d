/** The ultrasonic ranging sampler: echo time to centimetres, then the
    out-of-range clamp. */
module Ranging {

  /** Largest distance the sampler reports, in cm; also its "nothing seen" value. */
  const MAX_DISTANCE: int := 200
  /** Longest echo wait in microseconds; `pulseIn` reports 0 when it expires. */
  const ECHO_TIMEOUT_US: int := 30000

  /** Echo round-trip time in microseconds to one-way distance in centimetres,
      at 0.0343 cm per microsecond. */
  function EchoToCm(durationMicros: nat): (cm: real)
    ensures cm >= 0.0
    ensures cm == 0.0 <==> durationMicros == 0
    ensures durationMicros as real * 0.0343 == 2.0 * cm
  {
    durationMicros as real * 0.0343 / 2.0
  }

  /** Maps a raw distance to a sample: non-positive or beyond-range readings
      become `MAX_DISTANCE`, everything else passes through unchanged. */
  function Clamp(distance: real): (r: real)
    ensures 0.0 < r <= MAX_DISTANCE as real
    ensures r == distance <==> 0.0 < distance <= MAX_DISTANCE as real
    ensures r != distance ==> r == MAX_DISTANCE as real
  {
    if distance <= 0.0 || distance > MAX_DISTANCE as real then MAX_DISTANCE as real else distance
  }

  /** One reading of the sampler for a measured echo time. Echoes of 1 to
      11661 µs land within range and pass through; from 11662 µs on (the
      longest wait, 30000 µs, would give 514.5 cm) the reading is the maximum. */
  function GetDistance(durationMicros: nat): (r: real)
    ensures 0.0 < r <= MAX_DISTANCE as real
    ensures durationMicros == 0 ==> r == MAX_DISTANCE as real
    ensures 0 < durationMicros < 11662 ==> r == EchoToCm(durationMicros)
    ensures durationMicros >= 11662 ==> r == MAX_DISTANCE as real
  {
    Clamp(EchoToCm(durationMicros))
  }

  /** Clamping a sample again does not change it. */
  lemma ClampIdempotent(distance: real)
    ensures Clamp(Clamp(distance)) == Clamp(distance)
  {
  }
}
