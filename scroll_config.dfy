/** Shared timeline scroll sensitivity constants (web/src/config/timelineScroll.ts). */
module ScrollConfig {

  /** Pixels of wheel travel to accumulate before stepping to the next or previous year. */
  const WHEEL_THRESHOLD_PX: real := 360.0

  /** Wheel deltas whose magnitude is below this are ignored as noise. */
  const DEADZONE_PX: real := 2.0

  /** At most this many year steps are taken for a single wheel event. */
  const MAX_STEP_PER_EVENT: int := 3

  /** Breathing room below the last year group, in pixels. */
  const CONTENT_BOTTOM_PADDING: real := 24.0
}
