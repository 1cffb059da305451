/** The option type shared by every module. */
module Prelude {
  datatype Option<+T> = None | Some(value: T)

  /** Python's `round(n / d)` for integers: nearest, ties to even. */
  function RoundRatio(n: int, d: int): int
    requires d > 0
  {
    var q, m := n / d, n % d;
    if 2 * m < d || (2 * m == d && q % 2 == 0) then q else q + 1
  }

  lemma RoundRatioIsNearest(n: int, d: int)
    requires d > 0
    ensures 2 * n - d <= 2 * d * RoundRatio(n, d) <= 2 * n + d
    ensures 2 * d * RoundRatio(n, d) in {2 * n - d, 2 * n + d} ==> RoundRatio(n, d) % 2 == 0
  {
    var q, m := n / d, n % d;
    assert n == d * q + m;
    assert d * (q + 1) == d * q + d;
  }
}

/** The numeric constants of const.py; times are in milliseconds. */
module Constants {
  const BRIGHTNESS_TOLERANCE := 16
  const CIE_TOLERANCE := 0.03
  const COLOR_SPACE_XY := 1

  const FRAME_WATCHDOG_INTERVAL := 2000
  const FRAME_TIMEOUT := 5000
  const CLASSIC_DRAIN_IDLE := 2000
  const DEFAULT_YIELD := 2000
  const MAX_YIELD := 30000
  const LINK_BUTTON_TIMEOUT := 60000
}
