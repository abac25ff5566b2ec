/** Percentage adjustments, as the speed and setup sliders and the band
    variation apply them. */
module Percent {

  /** `base` adjusted by `pct` percent: `base * (1 + pct/100)`. A negative
      percentage lowers the value. */
  function Scale(base: real, pct: int): real
  {
    base * (1.0 + (pct as real) / 100.0)
  }
}
