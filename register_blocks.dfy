/**
 * The memory-mapped register blocks the drivers write, as plain 32-bit
 * fields. A block is identified by the address its instance pointer holds
 * (`base`), which is what the drivers compare against GPIOA, TIM2 and so on.
 * Only the registers the drivers touch are given for RCC.
 */
module RegisterBlocks {
  /** One GPIO port's register block (GPIO_TypeDef) at address `base`. */
  class GpioRegs {
    const base: nat
    var MODER: bv32
    var OTYPER: bv32
    var OSPEEDR: bv32
    var PUPDR: bv32
    /** Read-only to software; a `var` only because the pins change it. No routine writes it. */
    var IDR: bv32
    var ODR: bv32
    var BSRR: bv32
    var LCKR: bv32
    var AFRL: bv32
    var AFRH: bv32

    constructor (base: nat)
      ensures this.base == base
    {
      this.base := base;
    }
  }

  /** The two clock-enable registers of RCC_TypeDef that the drivers update. */
  class RccRegs {
    var AHB1ENR: bv32
    var APB1ENR: bv32
  }

  /**
   * One store into a SysTick register: a plain store into RVR or CVR, or a
   * read-modify-write that ORs `mask` into CSR.
   */
  datatype SysTickWrite = ToRVR(rvr: bv32) | ToCVR(cvr: bv32) | OrCSR(mask: bv32)

  /**
   * The SysTick block (SysTick_TypeDef). CALIB is read-only. `writes` records
   * every store the drivers make, oldest first, so that their order can be stated.
   */
  class SysTickRegs {
    var CSR: bv32
    var RVR: bv32
    var CVR: bv32
    const CALIB: bv32
    ghost var writes: seq<SysTickWrite>

    constructor (calib: bv32)
      ensures CALIB == calib && writes == []
    {
      CALIB := calib;
      writes := [];
    }
  }
}
