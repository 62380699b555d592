/** 32-bit tick arithmetic, as selected by configUSE_16_BIT_TICKS = 0. */
module Ticks {

  /** Number of distinct values of TickType_t. */
  const WRAP: int := 0x1_0000_0000

  type Tick = t: int | 0 <= t < 0x1_0000_0000

  /** portMAX_DELAY */
  const MAX_DELAY: Tick := 0xFFFF_FFFF

  /** Unsigned addition modulo 2^32. */
  function Plus(a: Tick, b: Tick): Tick {
    if a + b < WRAP then a + b else a + b - WRAP
  }

  /** Unsigned subtraction modulo 2^32. */
  function Minus(a: Tick, b: Tick): Tick {
    if a >= b then a - b else a - b + WRAP
  }
}
