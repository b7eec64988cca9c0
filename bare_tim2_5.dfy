/**
 * Clock gating of the general-purpose timers TIM2 to TIM5: the two helpers
 * set or clear the timer's bit in RCC APB1ENR. A pointer that is not one of
 * the four timers leaves APB1ENR as it was.
 */
module BareTim2To5 {
  import opened Options
  import opened Bits
  import opened Stm32f446reRegisters
  import opened RegisterBlocks

  /** The APB1ENR bit of the timer at `base`: TIM2 to TIM5 get bit 0 to 3; any other address gets none. */
  function TimerClockBit(base: nat): (r: Option<bv32>)
    ensures r.Some? ==> r.value < 4 && base == APB1PERIPH_BASE + SLOT * (r.value as nat)
  {
    if base == TIM2_BASE then Some(0)
    else if base == TIM3_BASE then Some(1)
    else if base == TIM4_BASE then Some(2)
    else if base == TIM5_BASE then Some(3)
    else None
  }

  /** TIMx's clock bit is its position in TIM2..TIM5; distinct timers have distinct bits. */
  lemma TimerClockBitOfTimer(t: Timer, u: Timer)
    ensures TimerClockBit(TimerBase(t)) == Some(TimerNumber(t) as bv32)
    ensures t != u ==> TimerClockBit(TimerBase(t)) != TimerClockBit(TimerBase(u))
  {
  }

  /** An address that is not one of TIM2 to TIM5 has no clock bit. */
  lemma TimerClockBitUnrecognised(base: nat)
    requires forall t :: base != TimerBase(t)
    ensures TimerClockBit(base) == None
  {
    assert base != TimerBase(Tim2) && base != TimerBase(Tim3);
    assert base != TimerBase(Tim4) && base != TimerBase(Tim5);
  }

  /** APB1ENR after bare_tim2_5_enable_clock for the timer at `base`. */
  function WithTimerClock(apb1enr: bv32, base: nat): (r: bv32)
    ensures TimerClockBit(base).Some? ==> Bit(r, TimerClockBit(base).value)
    ensures TimerClockBit(base).None? ==> r == apb1enr
  {
    match TimerClockBit(base)
    case Some(b) => SetBit(apb1enr, b)
    case None => apb1enr
  }

  /** APB1ENR after bare_tim2_5_disable_clock for the timer at `base`. */
  function WithoutTimerClock(apb1enr: bv32, base: nat): (r: bv32)
    ensures TimerClockBit(base).Some? ==> !Bit(r, TimerClockBit(base).value)
    ensures TimerClockBit(base).None? ==> r == apb1enr
  {
    match TimerClockBit(base)
    case Some(b) => ClearBit(apb1enr, b)
    case None => apb1enr
  }

  /** bare_tim2_5_enable_clock: OR the timer's bit into RCC APB1ENR. */
  method EnableClock(rcc: RccRegs, tim: nat)
    modifies rcc`APB1ENR
    ensures rcc.APB1ENR == WithTimerClock(old(rcc.APB1ENR), tim)
  {
    if tim == TIM2_BASE {
      rcc.APB1ENR := rcc.APB1ENR | (1 << 0);
    } else if tim == TIM3_BASE {
      rcc.APB1ENR := rcc.APB1ENR | (1 << 1);
    } else if tim == TIM4_BASE {
      rcc.APB1ENR := rcc.APB1ENR | (1 << 2);
    } else if tim == TIM5_BASE {
      rcc.APB1ENR := rcc.APB1ENR | (1 << 3);
    }
  }

  /** bare_tim2_5_disable_clock: clear the timer's bit in RCC APB1ENR. */
  method DisableClock(rcc: RccRegs, tim: nat)
    modifies rcc`APB1ENR
    ensures rcc.APB1ENR == WithoutTimerClock(old(rcc.APB1ENR), tim)
  {
    if tim == TIM2_BASE {
      rcc.APB1ENR := rcc.APB1ENR & !(1 << 0);
    } else if tim == TIM3_BASE {
      rcc.APB1ENR := rcc.APB1ENR & !(1 << 1);
    } else if tim == TIM4_BASE {
      rcc.APB1ENR := rcc.APB1ENR & !(1 << 2);
    } else if tim == TIM5_BASE {
      rcc.APB1ENR := rcc.APB1ENR & !(1 << 3);
    }
  }

  /** Enabling or disabling timer `t` changes no APB1ENR bit but its own. */
  lemma GatingFrame(apb1enr: bv32, t: Timer, i: bv32)
    requires i < 32 && i != TimerNumber(t) as bv32
    ensures Bit(WithTimerClock(apb1enr, TimerBase(t)), i) == Bit(apb1enr, i)
    ensures Bit(WithoutTimerClock(apb1enr, TimerBase(t)), i) == Bit(apb1enr, i)
  {
    TimerClockBitOfTimer(t, t);
    SetBitFrame(apb1enr, TimerNumber(t) as bv32);
    ClearBitFrame(apb1enr, TimerNumber(t) as bv32);
  }

  /** Gating one timer never changes another timer's clock bit. */
  lemma GatingIsolated(apb1enr: bv32, t: Timer, u: Timer)
    requires t != u
    ensures Bit(WithTimerClock(apb1enr, TimerBase(t)), TimerNumber(u) as bv32) == Bit(apb1enr, TimerNumber(u) as bv32)
    ensures Bit(WithoutTimerClock(apb1enr, TimerBase(t)), TimerNumber(u) as bv32) == Bit(apb1enr, TimerNumber(u) as bv32)
  {
    GatingFrame(apb1enr, t, TimerNumber(u) as bv32);
  }

  /** Enable then disable leaves the timer's bit clear and every other bit as before. */
  lemma EnableThenDisable(apb1enr: bv32, base: nat)
    ensures WithoutTimerClock(WithTimerClock(apb1enr, base), base) == WithoutTimerClock(apb1enr, base)
  {
    if TimerClockBit(base).Some? {
      ClearAfterSet(apb1enr, TimerClockBit(base).value);
    }
  }

  lemma GatingIdempotent(apb1enr: bv32, base: nat)
    ensures WithTimerClock(WithTimerClock(apb1enr, base), base) == WithTimerClock(apb1enr, base)
    ensures WithoutTimerClock(WithoutTimerClock(apb1enr, base), base) == WithoutTimerClock(apb1enr, base)
  {
    if TimerClockBit(base).Some? {
      SetBitIdempotent(apb1enr, TimerClockBit(base).value);
      ClearBitIdempotent(apb1enr, TimerClockBit(base).value);
    }
  }
}
