/** Kernel time. */
module Jiffies {
  /** Ticks per second is a build option; the kernel's choices are 100 to 1000. */
  type TickRate = n: nat | 100 <= n <= 1000 witness 100

  const HZ: TickRate
}
