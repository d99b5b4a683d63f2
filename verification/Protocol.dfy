/** What host and plotter agree on. */
module Protocol {
  const INPUT_BUFFER_BYTES: nat := 1024
  /** RS-232 error: input buffer overflow. */
  const OVERFLOW_ERROR: int := 16
  const VELOCITY_MIN: real := 0.38
  const VELOCITY_MAX: real := 38.1
  const VELOCITY_STEP: real := 0.38
}
