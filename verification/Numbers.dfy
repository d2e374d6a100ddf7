/** The few functions of `Math` that the layout and the schedules use, on exact reals. */
module Numbers {

  /** `Math.round` */
  function Round(x: real): int {
    (x + 0.5).Floor
  }

  function Max(a: real, b: real): real {
    if a >= b then a else b
  }

  function Min(a: real, b: real): real {
    if a <= b then a else b
  }
}
