/**
 * The STM32F446RE register map: fixed base addresses of the core and bus
 * peripherals, the peripheral instances placed at fixed strides from a bus
 * base, and the member layouts of the SysTick, NVIC, RCC and GPIO blocks.
 * Addresses are unbounded naturals; `AddressesFit` shows they are 32-bit values.
 */
module Stm32f446reRegisters {
  import opened Options
  import opened Layout

  const CORTEX_M4_PERIPH_BASE: nat := 0xE000_0000
  const SYSTICK_BASE: nat := CORTEX_M4_PERIPH_BASE + 0xE010
  const NVIC_BASE: nat := CORTEX_M4_PERIPH_BASE + 0xE100

  const APB1PERIPH_BASE: nat := 0x4000_0000
  const APB2PERIPH_BASE: nat := 0x4001_0000
  const AHB1PERIPH_BASE: nat := 0x4002_0000
  const AHB2PERIPH_BASE: nat := 0x5000_0000
  const AHB3PERIPH_BASE: nat := 0x6000_0000

  const RCC_BASE: nat := AHB1PERIPH_BASE + 0x3800

  const GPIOA_BASE: nat := AHB1PERIPH_BASE + 0x0000
  const GPIOB_BASE: nat := AHB1PERIPH_BASE + 0x0400
  const GPIOC_BASE: nat := AHB1PERIPH_BASE + 0x0800
  const GPIOD_BASE: nat := AHB1PERIPH_BASE + 0x0C00
  const GPIOE_BASE: nat := AHB1PERIPH_BASE + 0x1000
  const GPIOF_BASE: nat := AHB1PERIPH_BASE + 0x1400
  const GPIOG_BASE: nat := AHB1PERIPH_BASE + 0x1800
  const GPIOH_BASE: nat := AHB1PERIPH_BASE + 0x1C00

  const TIM2_BASE: nat := APB1PERIPH_BASE + 0x0000
  const TIM3_BASE: nat := APB1PERIPH_BASE + 0x0400
  const TIM4_BASE: nat := APB1PERIPH_BASE + 0x0800
  const TIM5_BASE: nat := APB1PERIPH_BASE + 0x0C00

  /** Size of the address window each AHB1/APB1 peripheral instance occupies. */
  const SLOT: nat := 0x400

  /** The GPIO instances, GPIOA to GPIOH. */
  datatype GpioPort = PortA | PortB | PortC | PortD | PortE | PortF | PortG | PortH

  /** The general-purpose timers TIM2 to TIM5. */
  datatype Timer = Tim2 | Tim3 | Tim4 | Tim5

  /** Position of a port in A..H. */
  function PortNumber(p: GpioPort): nat {
    match p
    case PortA => 0 case PortB => 1 case PortC => 2 case PortD => 3
    case PortE => 4 case PortF => 5 case PortG => 6 case PortH => 7
  }

  /** Position of a timer in TIM2..TIM5. */
  function TimerNumber(t: Timer): nat {
    match t
    case Tim2 => 0 case Tim3 => 1 case Tim4 => 2 case Tim5 => 3
  }

  /** The address the `GPIOx` pointer macro holds. */
  function GpioBase(p: GpioPort): nat {
    match p
    case PortA => GPIOA_BASE case PortB => GPIOB_BASE
    case PortC => GPIOC_BASE case PortD => GPIOD_BASE
    case PortE => GPIOE_BASE case PortF => GPIOF_BASE
    case PortG => GPIOG_BASE case PortH => GPIOH_BASE
  }

  /** The address of timer `t`'s register block. */
  function TimerBase(t: Timer): nat {
    match t
    case Tim2 => TIM2_BASE case Tim3 => TIM3_BASE
    case Tim4 => TIM4_BASE case Tim5 => TIM5_BASE
  }

  const SysTickLayout: seq<Field> := Words([
    "CSR", "RVR", "CVR", "CALIB"])

  const NvicLayout: seq<Field> := [
    Field("ISER", 4, 8), Field("RESERVED0", 4, 24),
    Field("ICER", 4, 8), Field("RESERVED1", 4, 24),
    Field("ISPR", 4, 8), Field("RESERVED2", 4, 24),
    Field("ICPR", 4, 8), Field("RESERVED3", 4, 24),
    Field("IABR", 4, 8), Field("RESERVED4", 4, 56),
    Field("IPR", 1, 240), Field("RESERVED5", 4, 644),
    Field("STIR", 4, 1)]

  const RccLayout: seq<Field> := Words([
    "CR", "PLLCFGR", "CFGR", "CIR", "AHB1RSTR", "AHB2RSTR", "AHB3RSTR", "RESERVED0",
    "APB1RSTR", "APB2RSTR", "RESERVED1", "RESERVED2", "AHB1ENR", "AHB2ENR", "AHB3ENR",
    "RESERVED3", "APB1ENR", "APB2ENR", "RESERVED4", "RESERVED5", "AHB1LPENR", "AHB2LPENR",
    "AHB3LPENR", "RESERVED6", "APB1LPENR", "APB2LPENR", "RESERVED7", "RESERVED8", "BDCR",
    "CSR", "RESERVED9", "RESERVED10", "SSCGR", "PLLI2SCFGR", "PLLSAICFGR", "DCKCFGR",
    "CKGATENR", "DCKCFGR2"])

  const GpioLayout: seq<Field> := Words([
    "MODER", "OTYPER", "OSPEEDR", "PUPDR", "IDR", "ODR", "BSRR", "LCKR", "AFRL", "AFRH"])

  /** Every address the register map names is a 32-bit value. */
  lemma AddressesFit()
    ensures SYSTICK_BASE < 0x1_0000_0000 && NVIC_BASE < 0x1_0000_0000
    ensures AHB3PERIPH_BASE < 0x1_0000_0000 && RCC_BASE < 0x1_0000_0000
    ensures forall p :: GpioBase(p) < 0x1_0000_0000
    ensures forall t :: TimerBase(t) < 0x1_0000_0000
  {
  }

  lemma CoreBases()
    ensures SYSTICK_BASE == 0xE000_E010
    ensures NVIC_BASE == 0xE000_E100
    ensures RCC_BASE == 0x4002_3800
  {
  }

  /** CSR, RVR, CVR and CALIB at 0x0, 0x4, 0x8 and 0xC; the block is 16 bytes. */
  lemma SysTickOffsets()
    ensures NaturallyAligned(SysTickLayout) && SizeOf(SysTickLayout) == 0x10
    ensures SysTickLayout[0].name == "CSR" && Offset(SysTickLayout, 0) == 0x0
    ensures SysTickLayout[1].name == "RVR" && Offset(SysTickLayout, 1) == 0x4
    ensures SysTickLayout[2].name == "CVR" && Offset(SysTickLayout, 2) == 0x8
    ensures SysTickLayout[3].name == "CALIB" && Offset(SysTickLayout, 3) == 0xC
  {
    WordStructAligned(SysTickLayout);
  }

  /** The register arrays of the NVIC sit where the reserved-range comments place them. */
  lemma NvicOffsets()
    ensures NvicLayout[0].name == "ISER" && Offset(NvicLayout, 0) == 0x000
    ensures NvicLayout[2].name == "ICER" && Offset(NvicLayout, 2) == 0x080
    ensures NvicLayout[4].name == "ISPR" && Offset(NvicLayout, 4) == 0x100
    ensures NvicLayout[6].name == "ICPR" && Offset(NvicLayout, 6) == 0x180
    ensures NvicLayout[8].name == "IABR" && Offset(NvicLayout, 8) == 0x200
    ensures NvicLayout[10].name == "IPR" && Offset(NvicLayout, 10) == 0x300
    ensures NvicLayout[12].name == "STIR" && Offset(NvicLayout, 12) == 0xE00
  {
  }

  /**
   * Each reserved gap covers the range its comment gives: from the first word
   * to the last word for RESERVED0 to RESERVED4, and from 0x3F0 up to (not
   * including) 0xE00 for RESERVED5, whose length is (0xE00 - 0x3F0) / 4.
   */
  lemma NvicReservedRanges()
    ensures Offset(NvicLayout, 1) == 0x020 && Offset(NvicLayout, 2) - 4 == 0x07C
    ensures Offset(NvicLayout, 3) == 0x0A0 && Offset(NvicLayout, 4) - 4 == 0x0FC
    ensures Offset(NvicLayout, 5) == 0x120 && Offset(NvicLayout, 6) - 4 == 0x17C
    ensures Offset(NvicLayout, 7) == 0x1A0 && Offset(NvicLayout, 8) - 4 == 0x1FC
    ensures Offset(NvicLayout, 9) == 0x220 && Offset(NvicLayout, 10) - 4 == 0x2FC
    ensures Offset(NvicLayout, 11) == 0x3F0 && Offset(NvicLayout, 12) == 0xE00
    ensures NvicLayout[11].count == (0xE00 - 0x3F0) / 4 == 644
  {
  }

  /** The one byte-array member, IPR, ends on a word boundary, so C adds no padding. */
  lemma NvicAligned()
    ensures NaturallyAligned(NvicLayout)
  {
    assert |NvicLayout| == 13;
    forall j | 0 <= j < 13
      ensures (NvicLayout[j].elemBytes == 1 || NvicLayout[j].elemBytes == 4) && Bytes(NvicLayout[j]) % 4 == 0
    {
      if j == 10 {
      } else {
        assert NvicLayout[j].elemBytes == 4;
      }
    }
    WordMultiplesAligned(NvicLayout);
  }

  /** The block ends right after STIR, 0xE04 bytes from its base. */
  lemma NvicSize()
    ensures SizeOf(NvicLayout) == 0xE04
  {
    NvicOffsets();
    assert Offset(NvicLayout, 13) == Offset(NvicLayout, 12) + 4;
    EndIsSize(NvicLayout);
  }

  /** RCC_TypeDef needs no padding, so member `i` sits at byte `4 * i`. */
  lemma RccOffset(i: nat)
    requires i <= |RccLayout|
    ensures NaturallyAligned(RccLayout)
    ensures Offset(RccLayout, i) == 4 * i
  {
    WordStructAligned(RccLayout);
    WordStructOffsets(RccLayout, i);
  }

  /** The clock-enable registers the drivers write: AHB1ENR at 0x30 and APB1ENR at 0x40. */
  lemma RccEnableRegisters()
    ensures RccLayout[12].name == "AHB1ENR" && Offset(RccLayout, 12) == 0x30
    ensures RccLayout[16].name == "APB1ENR" && Offset(RccLayout, 16) == 0x40
  {
    RccOffset(12);
    RccOffset(16);
  }

  /** The reserved words up to APB1ENR sit at the offsets their comments state. */
  lemma RccReservedLow()
    ensures RccLayout[7].name == "RESERVED0" && Offset(RccLayout, 7) == 0x1C
    ensures RccLayout[10].name == "RESERVED1" && Offset(RccLayout, 10) == 0x28
    ensures RccLayout[11].name == "RESERVED2" && Offset(RccLayout, 11) == 0x2C
    ensures RccLayout[15].name == "RESERVED3" && Offset(RccLayout, 15) == 0x3C
  {
    RccOffset(7);
    RccOffset(10);
    RccOffset(11);
    RccOffset(15);
  }

  /** The reserved words of the low-power and backup part sit where their comments say. */
  lemma RccReservedMiddle()
    ensures RccLayout[18].name == "RESERVED4" && Offset(RccLayout, 18) == 0x48
    ensures RccLayout[19].name == "RESERVED5" && Offset(RccLayout, 19) == 0x4C
    ensures RccLayout[23].name == "RESERVED6" && Offset(RccLayout, 23) == 0x5C
  {
    RccOffset(18);
    RccOffset(19);
    RccOffset(23);
  }

  lemma RccReservedHigh()
    ensures RccLayout[26].name == "RESERVED7" && Offset(RccLayout, 26) == 0x68
    ensures RccLayout[27].name == "RESERVED8" && Offset(RccLayout, 27) == 0x6C
    ensures RccLayout[30].name == "RESERVED9" && Offset(RccLayout, 30) == 0x78
    ensures RccLayout[31].name == "RESERVED10" && Offset(RccLayout, 31) == 0x7C
  {
    RccOffset(26);
    RccOffset(27);
    RccOffset(30);
    RccOffset(31);
  }

  /** The ten GPIO registers sit at consecutive words 0x00 to 0x24; the block is 0x28 bytes. */
  lemma GpioOffsets()
    ensures NaturallyAligned(GpioLayout) && SizeOf(GpioLayout) == 0x28
    ensures forall i :: 0 <= i < |GpioLayout| ==> Offset(GpioLayout, i) == 4 * i
    ensures GpioLayout[0].name == "MODER" && GpioLayout[9].name == "AFRH"
    ensures Offset(GpioLayout, 9) == 0x24
  {
    WordStructAligned(GpioLayout);
    forall i | 0 <= i < |GpioLayout|
      ensures Offset(GpioLayout, i) == 4 * i
    {
      WordStructOffsets(GpioLayout, i);
    }
  }

  /**
   * GPIOA..GPIOH are the consecutive 0x400-byte slots of AHB1; each 0x28-byte
   * register block stays inside its slot, and all of them lie below RCC.
   */
  lemma GpioBases(p: GpioPort)
    ensures GpioBase(p) == AHB1PERIPH_BASE + SLOT * PortNumber(p)
    ensures GpioBase(p) + SizeOf(GpioLayout) <= GpioBase(p) + SLOT
    ensures GpioBase(p) + SizeOf(GpioLayout) <= RCC_BASE
  {
    GpioOffsets();
  }

  lemma GpioBasesDistinct(p: GpioPort, q: GpioPort)
    requires p != q
    ensures GpioBase(p) != GpioBase(q)
  {
  }

  /** TIM2..TIM5 are the first four 0x400-byte slots of APB1. */
  lemma TimerBases(t: Timer)
    ensures TimerBase(t) == APB1PERIPH_BASE + SLOT * TimerNumber(t)
  {
  }

  lemma TimerBasesDistinct(t: Timer, u: Timer)
    requires t != u
    ensures TimerBase(t) != TimerBase(u)
  {
  }
}
